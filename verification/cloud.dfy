/**
 * The cloud-infrastructure page's two computed texts: the usage caption of
 * each metric card, bucketed by thresholds on its percentage, and the
 * capitalised status of each CI/CD pipeline stage.
 */
module Cloud {
  import opened Text

  /** The three usage buckets, from lowest to highest. */
  datatype Usage = LowUsage | ModerateUsage | HighUsage

  /** The caption a card prints for a bucket. */
  function Caption(u: Usage): string {
    match u
    case HighUsage => "High usage"
    case ModerateUsage => "Moderate usage"
    case LowUsage => "Low usage"
  }

  /** Position of a bucket in the order low < moderate < high. */
  function Rank(u: Usage): nat {
    match u
    case LowUsage => 0
    case ModerateUsage => 1
    case HighUsage => 2
  }

  /** `value > 80 ? 'High usage' : value > 50 ? 'Moderate usage' : 'Low usage'`, as a bucket. */
  function UsageOf(value: int): (u: Usage)
    ensures u == HighUsage <==> value > 80
    ensures u == ModerateUsage <==> 50 < value <= 80
    ensures u == LowUsage <==> value <= 50
  {
    if value > 80 then HighUsage else if value > 50 then ModerateUsage else LowUsage
  }

  /** A larger percentage never falls in a lower bucket. */
  lemma UsageMonotone(a: int, b: int)
    requires a <= b
    ensures Rank(UsageOf(a)) <= Rank(UsageOf(b))
  {
  }

  /** Captions are distinct, so the text on the card determines the bucket. */
  lemma CaptionInjective(u: Usage, v: Usage)
    requires Caption(u) == Caption(v)
    ensures u == v
  {
  }

  /** One metric card: its name and its percentage. */
  datatype Metric = Metric(name: string, value: int)

  const InfrastructureMetrics := [
    Metric("CPU Usage", 67), Metric("Memory Usage", 45),
    Metric("Storage Usage", 78), Metric("Network I/O", 34)
  ]

  /** The captions of a row of metric cards, in order. */
  function Captions(metrics: seq<Metric>): (captions: seq<string>)
    ensures |captions| == |metrics|
    ensures forall i :: 0 <= i < |metrics| ==> captions[i] == Caption(UsageOf(metrics[i].value))
  {
    if metrics == [] then [] else [Caption(UsageOf(metrics[0].value))] + Captions(metrics[1..])
  }

  /** The page's four metrics read moderate, low, moderate, low. */
  lemma InfrastructureCaptions()
    ensures Captions(InfrastructureMetrics) ==
              ["Moderate usage", "Low usage", "Moderate usage", "Low usage"]
  {
  }

  /** One CI/CD stage: its name and its status word. */
  datatype Stage = Stage(stage: string, status: string)

  const PipelineStages := [
    Stage("Build", "completed"), Stage("Test", "completed"),
    Stage("Security Scan", "running"), Stage("Deploy", "pending")
  ]

  /** The status labels (`Capitalize`) of the page's stages read Completed, Completed, Running, Pending. */
  lemma PipelineStatusLabels()
    ensures Capitalize(PipelineStages[0].status) == "Completed"
    ensures Capitalize(PipelineStages[1].status) == "Completed"
    ensures Capitalize(PipelineStages[2].status) == "Running"
    ensures Capitalize(PipelineStages[3].status) == "Pending"
  {
    assert UpperChar('c') == 'C';
    assert UpperChar('r') == 'R';
    assert UpperChar('p') == 'P';
  }

}
