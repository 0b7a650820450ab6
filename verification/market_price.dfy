/**
 * The market-price page: a form of four fields (commodity, state, start and
 * end date), three guards checked in a fixed order on submit, a GET request
 * whose query carries the four fields URI-encoded, and the page state
 * `loading` / `error` / `data` that decides which panel is shown.
 */
module MarketPrice {
  import opened Wrappers
  import opened Text
  import opened StringOrder
  import opened UriComponent

  /** One row of the price table the backend returns. */
  datatype PriceRow = PriceRow(
    date: string,
    marketName: string,
    variety: string,
    minPricePerQuintal: real,
    maxPricePerQuintal: real,
    modalPricePerQuintal: real)

  /** The four form fields; the empty string is an unselected field. */
  datatype Query = Query(commodity: string, state: string, startDate: string, endDate: string)

  const MissingParameters := "Please select all parameters."
  const FutureEndDate := "End date cannot be in the future."
  const ReversedRange := "Start date cannot be after end date."
  const NoDataFound := "No data found"
  const FetchFailed := "Error fetching market prices"

  /** The choices of the commodity drop-down. */
  const Commodities := ["potato", "onion", "tomato", "rice", "wheat", "maize",
                        "sugarcane", "pulses", "cotton", "mustard", "groundnut"]

  /** The commodity drop-down shows each commodity capitalised. */
  function OptionLabels(commodities: seq<string>): (labels: seq<string>)
    ensures |labels| == |commodities|
    ensures forall i :: 0 <= i < |commodities| ==> labels[i] == Capitalize(commodities[i])
  {
    seq(|commodities|, i requires 0 <= i < |commodities| => Capitalize(commodities[i]))
  }

  /** The option labels of the page's commodity list. */
  lemma CommodityOptionLabels()
    ensures OptionLabels(Commodities) == ["Potato", "Onion", "Tomato", "Rice", "Wheat", "Maize",
                                          "Sugarcane", "Pulses", "Cotton", "Mustard", "Groundnut"]
  {
    CapitalizedFirstFour();
    CapitalizedMiddleFour();
    CapitalizedLastThree();
    var labels := OptionLabels(Commodities);
    var expected := ["Potato", "Onion", "Tomato", "Rice", "Wheat", "Maize",
                     "Sugarcane", "Pulses", "Cotton", "Mustard", "Groundnut"];
    forall i | 0 <= i < 11 ensures labels[i] == expected[i] {
      assert labels[i] == Capitalize(Commodities[i]);
    }
  }

  lemma CapitalizedFirstFour()
    ensures Capitalize("potato") == "Potato"
    ensures Capitalize("onion") == "Onion"
    ensures Capitalize("tomato") == "Tomato"
    ensures Capitalize("rice") == "Rice"
  {
    assert UpperChar('p') == 'P';
    assert UpperChar('o') == 'O';
    assert UpperChar('t') == 'T';
    assert UpperChar('r') == 'R';
  }

  lemma CapitalizedMiddleFour()
    ensures Capitalize("wheat") == "Wheat"
    ensures Capitalize("maize") == "Maize"
    ensures Capitalize("sugarcane") == "Sugarcane"
    ensures Capitalize("pulses") == "Pulses"
  {
    assert UpperChar('w') == 'W';
    assert UpperChar('m') == 'M';
    assert UpperChar('s') == 'S';
    assert UpperChar('p') == 'P';
  }

  lemma CapitalizedLastThree()
    ensures Capitalize("cotton") == "Cotton"
    ensures Capitalize("mustard") == "Mustard"
    ensures Capitalize("groundnut") == "Groundnut"
  {
    assert UpperChar('c') == 'C';
    assert UpperChar('m') == 'M';
    assert UpperChar('g') == 'G';
  }

  /** No field is empty (an empty string is falsy). */
  predicate AllPresent(q: Query) {
    q.commodity != "" && q.state != "" && q.startDate != "" && q.endDate != ""
  }

  /** What the guards of a submit decided. */
  datatype Verdict = Accept | Reject(message: string)

  /**
   * The guards of `handleSubmit`, first failure wins: a missing field, then an
   * end date after `today`, then a start date after the end date (string order).
   */
  function Validate(q: Query, today: string): (v: Verdict)
    ensures v == Reject(MissingParameters) <==> !AllPresent(q)
    ensures v == Reject(FutureEndDate) <==> AllPresent(q) && Less(today, q.endDate)
    ensures v == Reject(ReversedRange) <==>
              AllPresent(q) && !Less(today, q.endDate) && Less(q.endDate, q.startDate)
    ensures v == Accept <==>
              AllPresent(q) && !Less(today, q.endDate) && !Less(q.endDate, q.startDate)
  {
    if !AllPresent(q) then Reject(MissingParameters)
    else if Less(today, q.endDate) then Reject(FutureEndDate)
    else if Less(q.endDate, q.startDate) then Reject(ReversedRange)
    else Accept
  }

  /** An accepted range lies wholly in the past: the start date is not after `today` either. */
  lemma AcceptedStartNotInFuture(q: Query, today: string)
    requires Validate(q, today) == Accept
    ensures !Less(today, q.startDate)
  {
    AtMostTransitive(q.startDate, q.endDate, today);
  }

  /**
   * With `YYYY-MM-DD` dates the string guards are calendar guards: a query
   * with both selections made is accepted exactly when start <= end <= today.
   */
  lemma AcceptedIffChronological(q: Query, today: string)
    requires q.commodity != "" && q.state != ""
    requires IsIsoDate(q.startDate) && IsIsoDate(q.endDate) && IsIsoDate(today)
    ensures Validate(q, today) == Accept <==>
              DateKey(q.startDate) <= DateKey(q.endDate) <= DateKey(today)
  {
    IsoDateOrder(today, q.endDate);
    IsoDateOrder(q.endDate, q.startDate);
  }

  /** The query parameters of the request, in the order the URL lists them. */
  function Params(q: Query): seq<(string, string)> {
    [("commodity", q.commodity), ("state", q.state), ("startDate", q.startDate), ("endDate", q.endDate)]
  }

  /** `key=value` with the value URI-encoded. */
  function Param(p: (string, string)): string {
    p.0 + "=" + Encode(p.1)
  }

  /** The parameters joined by `&`. */
  function JoinParams(ps: seq<(string, string)>): string {
    if ps == [] then []
    else if |ps| == 1 then Param(ps[0])
    else Param(ps[0]) + "&" + JoinParams(ps[1..])
  }

  /** The request URL built from the backend base and the form. */
  function RequestUrl(backend: string, q: Query): string {
    backend + "/gemini/commodity-market-data?" + JoinParams(Params(q))
  }

  /** The URL spells out the four fields in the fixed order, each URI-encoded. */
  lemma RequestUrlLayout(backend: string, q: Query)
    ensures RequestUrl(backend, q) ==
              backend + "/gemini/commodity-market-data?commodity=" + Encode(q.commodity)
              + "&state=" + Encode(q.state) + "&startDate=" + Encode(q.startDate)
              + "&endDate=" + Encode(q.endDate)
  {
    var ps := Params(q);
    var e1, e2, e3, e4 := Encode(q.commodity), Encode(q.state), Encode(q.startDate), Encode(q.endDate);
    var j1, j2, j3 := JoinParams(ps[1..]), JoinParams(ps[2..]), JoinParams(ps[3..]);
    assert ps[3..] == [("endDate", q.endDate)];
    assert j3 == "endDate" + "=" + e4;
    assert j2 == "startDate" + "=" + e3 + "&" + j3;
    assert j1 == "state" + "=" + e2 + "&" + j2;
    assert JoinParams(ps) == "commodity" + "=" + e1 + "&" + j1;
    KeyLiterals();
    var x1 := backend + "/gemini/commodity-market-data?commodity=" + e1;
    var x2 := x1 + "&state=" + e2;
    var x3 := x2 + "&startDate=" + e3;
    ShiftKey(backend, "/gemini/commodity-market-data?", "commodity", e1, j1, "/gemini/commodity-market-data?commodity=");
    ShiftKey(x1, "&", "state", e2, j2, "&state=");
    ShiftKey(x2, "&", "startDate", e3, j3, "&startDate=");
    ShiftLastKey(x3, "&", "endDate", e4, "&endDate=");
  }

  /** The literal pieces of the URL template. */
  lemma KeyLiterals()
    ensures "/gemini/commodity-market-data?" + ("commodity" + "=") == "/gemini/commodity-market-data?commodity="
    ensures "&" + ("state" + "=") == "&state="
    ensures "&" + ("startDate" + "=") == "&startDate="
    ensures "&" + ("endDate" + "=") == "&endDate="
  {
  }

  /** `x + s + (k=e&j)` regrouped so that `s`, the key and `=` form one literal piece `sk`. */
  lemma ShiftKey(x: string, s: string, k: string, e: string, j: string, sk: string)
    requires s + (k + "=") == sk
    ensures x + s + (k + "=" + e + "&" + j) == x + sk + e + "&" + j
  {
    var kq := k + "=";
    ConcatAssoc(x + s, kq + e + "&", j);
    ConcatAssoc(x + s, kq + e, "&");
    ConcatAssoc(x + s, kq, e);
    ConcatAssoc(x, s, kq);
  }

  /** The last `k=e` regrouped the same way. */
  lemma ShiftLastKey(x: string, s: string, k: string, e: string, sk: string)
    requires s + (k + "=") == sk
    ensures x + s + (k + "=" + e) == x + sk + e
  {
    ConcatAssoc(x + s, k + "=", e);
    ConcatAssoc(x, s, k + "=");
  }

  /** How a receiver reads a query: split on `&`, then on `=`, then decode. */
  function ReadParams(parts: seq<string>): Option<seq<(string, string)>> {
    if parts == [] then Some([])
    else
      var kv := Split(parts[0], '=');
      if |kv| != 2 then None
      else
        match (Decode(kv[0]), Decode(kv[1]), ReadParams(parts[1..]))
        case (Some(k), Some(v), Some(rest)) => Some([(k, v)] + rest)
        case _ => None
  }

  function ReadQuery(query: string): Option<seq<(string, string)>> {
    ReadParams(Split(query, '&'))
  }

  /** A key made of unreserved characters encodes, and so decodes, to itself. */
  lemma {:induction false} EncodeUnreserved(s: string)
    requires forall i :: 0 <= i < |s| ==> Unreserved(s[i])
    ensures Encode(s) == s
  {
    if s != [] {
      EncodeUnreserved(s[1..]);
      assert [s[0]] + s[1..] == s;
    }
  }

  /** One `key=value` piece reads back as its key and its unencoded value. */
  lemma ReadParam(p: (string, string), rest: seq<string>)
    requires forall i :: 0 <= i < |p.0| ==> Unreserved(p.0[i])
    ensures ReadParams([Param(p)] + rest) ==
              match ReadParams(rest)
              case Some(ps) => Some([p] + ps)
              case None => None
  {
    var parts := [Param(p)] + rest;
    ReadPiece(p);
    assert parts[0] == Param(p);
    assert parts[1..] == rest;
  }

  /** The `key=value` piece splits on `=` into the key and the encoded value, which decode back. */
  lemma ReadPiece(p: (string, string))
    requires forall i :: 0 <= i < |p.0| ==> Unreserved(p.0[i])
    ensures Split(Param(p), '=') == [p.0, Encode(p.1)]
    ensures Decode(p.0) == Some(p.0) && Decode(Encode(p.1)) == Some(p.1)
  {
    EncodeUnreserved(p.0);
    DecodeEncode(p.0);
    DecodeEncode(p.1);
    EncodeAvoidsDelimiters(p.1);
    SplitJoin(p.0, '=', Encode(p.1));
    SplitWithout(Encode(p.1), '=');
    assert p.0 + "=" + Encode(p.1) == p.0 + ['='] + Encode(p.1);
  }

  /** A `key=value` piece with an unreserved key contains no `&`. */
  lemma ParamAvoidsAmpersand(p: (string, string))
    requires forall i :: 0 <= i < |p.0| ==> Unreserved(p.0[i])
    ensures '&' !in Param(p)
  {
    EncodeAvoidsDelimiters(p.1);
  }

  /** Reading back a joined, encoded parameter list gives the list itself. */
  lemma {:induction false} ReadJoinParams(ps: seq<(string, string)>)
    requires ps != []
    requires forall k :: 0 <= k < |ps| ==> forall i :: 0 <= i < |ps[k].0| ==> Unreserved(ps[k].0[i])
    ensures ReadQuery(JoinParams(ps)) == Some(ps)
  {
    ParamAvoidsAmpersand(ps[0]);
    if |ps| == 1 {
      SplitWithout(Param(ps[0]), '&');
      ReadParam(ps[0], []);
      assert [Param(ps[0])] + [] == [Param(ps[0])];
      assert [ps[0]] + [] == ps;
    } else {
      ReadJoinParams(ps[1..]);
      ReadJoinStep(ps[0], ps[1..]);
      assert [ps[0]] + ps[1..] == ps;
    }
  }

  /** One more parameter in front of a list that reads back reads back with it. */
  lemma ReadJoinStep(p: (string, string), rest: seq<(string, string)>)
    requires rest != []
    requires forall i :: 0 <= i < |p.0| ==> Unreserved(p.0[i])
    requires '&' !in Param(p)
    requires ReadQuery(JoinParams(rest)) == Some(rest)
    ensures ReadQuery(JoinParams([p] + rest)) == Some([p] + rest)
  {
    var ps := [p] + rest;
    assert ps[0] == p && ps[1..] == rest;
    assert JoinParams(ps) == Param(p) + ['&'] + JoinParams(rest);
    SplitJoin(Param(p), '&', JoinParams(rest));
    ReadParam(p, Split(JoinParams(rest), '&'));
  }

  /** The backend reads back exactly the four fields, in order, whatever characters they hold. */
  lemma QueryRoundTrip(q: Query)
    ensures ReadQuery(JoinParams(Params(q))) == Some(Params(q))
  {
    ReadJoinParams(Params(q));
  }

  /** What the fetch came to. */
  datatype Outcome =
    | Answered(rows: seq<PriceRow>)  // the JSON body has a truthy `success`; `data` holds the rows
    | Unsuccessful                   // the JSON body's `success` is falsy
    | Failed                         // `fetch` or `res.json()` threw

  /** The content of the result card. */
  datatype Panel = LoadingPanel | ErrorPanel(message: string) | EmptyPanel | TablePanel(rows: seq<PriceRow>)

  /** Loading wins over an error, an error over "no data", and the table comes last. */
  function PanelFor(loading: bool, error: string, data: seq<PriceRow>): (p: Panel)
    ensures p == LoadingPanel <==> loading
    ensures p.ErrorPanel? <==> !loading && error != ""
    ensures p == EmptyPanel <==> !loading && error == "" && data == []
    ensures p.TablePanel? <==> !loading && error == "" && data != []
    ensures p.ErrorPanel? ==> p.message == error
    ensures p.TablePanel? ==> p.rows == data
  {
    if loading then LoadingPanel
    else if error != "" then ErrorPanel(error)
    else if data == [] then EmptyPanel
    else TablePanel(data)
  }

  class MarketPricePage {
    /** The backend base URL (`NEXT_PUBLIC_BACKEND_API_URL`). */
    const backend: string
    var data: seq<PriceRow>
    var loading: bool
    var error: string
    var commodity: string
    var state: string
    var startDate: string
    var endDate: string

    constructor (backend: string)
      ensures this.backend == backend
      ensures data == [] && !loading && error == ""
      ensures commodity == "" && state == "" && startDate == "" && endDate == ""
    {
      this.backend := backend;
      data, loading, error := [], false, "";
      commodity, state, startDate, endDate := "", "", "", "";
    }

    function Form(): Query
      reads this
    {
      Query(commodity, state, startDate, endDate)
    }

    function Shown(): Panel
      reads this
    {
      PanelFor(loading, error, data)
    }

    /** The submit button is disabled while a request is in flight. */
    function SubmitDisabled(): (disabled: bool)
      reads this
      ensures disabled <==> Shown() == LoadingPanel
    {
      loading
    }

    method SetCommodity(value: string)
      modifies this`commodity
      ensures commodity == value
    {
      commodity := value;
    }

    method SetState(value: string)
      modifies this`state
      ensures state == value
    {
      state := value;
    }

    method SetStartDate(value: string)
      modifies this`startDate
      ensures startDate == value
    {
      startDate := value;
    }

    method SetEndDate(value: string)
      modifies this`endDate
      ensures endDate == value
    {
      endDate := value;
    }

    /**
     * `handleSubmit` up to the fetch: clear the error and the rows, then run the
     * guards. A rejection ends the submit with its message; an acceptance leaves
     * the page loading and yields the URL to fetch.
     */
    method BeginSubmit(today: string) returns (url: Option<string>)
      modifies this`loading, this`error, this`data
      ensures data == []
      ensures Validate(Form(), today) == Accept ==>
                url == Some(RequestUrl(backend, Form())) && loading && error == ""
      ensures Validate(Form(), today).Reject? ==>
                url == None && !loading && error == Validate(Form(), today).message
    {
      loading := true;
      error := "";
      data := [];
      match Validate(Form(), today)
      case Reject(message) =>
        error := message;
        loading := false;
        url := None;
      case Accept =>
        url := Some(RequestUrl(backend, Form()));
    }

    /** The rest of `handleSubmit`: record the outcome of the fetch, then stop loading. */
    method Complete(outcome: Outcome)
      modifies this`loading, this`error, this`data
      ensures !loading
      ensures outcome.Answered? ==> data == outcome.rows && error == old(error)
      ensures outcome.Unsuccessful? ==> data == old(data) && error == NoDataFound
      ensures outcome.Failed? ==> data == old(data) && error == FetchFailed
    {
      match outcome {
        case Answered(rows) => data := rows;
        case Unsuccessful => error := NoDataFound;
        case Failed => error := FetchFailed;
      }
      loading := false;
    }

    /**
     * A whole submit: the request is built only when every guard passes, and
     * afterwards the page is not loading and shows exactly one of the rows, the
     * rejection message, "No data found" or "Error fetching market prices".
     */
    method Submit(today: string, outcome: Outcome) returns (url: Option<string>)
      modifies this`loading, this`error, this`data
      ensures !loading
      ensures url.Some? <==> Validate(Form(), today) == Accept
      ensures url.Some? ==> url.value == RequestUrl(backend, Form())
      ensures Validate(Form(), today).Reject? ==>
                data == [] && error == Validate(Form(), today).message
                && Shown() == ErrorPanel(Validate(Form(), today).message)
      ensures Validate(Form(), today) == Accept && outcome.Answered? ==>
                data == outcome.rows && error == ""
                && Shown() == (if outcome.rows == [] then EmptyPanel else TablePanel(outcome.rows))
      ensures Validate(Form(), today) == Accept && outcome.Unsuccessful? ==>
                data == [] && error == NoDataFound && Shown() == ErrorPanel(NoDataFound)
      ensures Validate(Form(), today) == Accept && outcome.Failed? ==>
                data == [] && error == FetchFailed && Shown() == ErrorPanel(FetchFailed)
    {
      url := BeginSubmit(today);
      if url.Some? {
        Complete(outcome);
      }
    }
  }
}
