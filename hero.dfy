/**
 * The lookup form on the landing page: the container-number input, its submit
 * handler with the request lifecycle (`loading`, `error`, `data`, `isOpen`),
 * the submit button's disabled rule, and the rows of the result overlay.
 *
 * The call to the proxy endpoint is not made here: the handler is split at its
 * `await` into `Begin` (validation, up to the request it would send) and
 * `Settle` (what it does with the reply), and the reply is a parameter.
 */
module Hero {
  import opened Wrappers
  import Text
  import opened Container

  const IdentifierLength: nat := 11
  const LengthMessage: string := "Container number should be 11 characters (e.g., TEMU1234567)"
  const GenericFailure: string := "Something went wrong"
  const StatusPrefix: string := "Error: "
  const TitlePrefix: string := "Container "

  // ---------------------------------------------------------------------------
  // Input normalisation
  // ---------------------------------------------------------------------------

  /** `raw.trim().toUpperCase().replace(/\s+/g, "")`. */
  function Normalize(raw: string): (clean: string)
    ensures Text.NoWhitespace(clean)
    ensures Text.NoLower(clean)
    ensures |clean| <= |raw|
  {
    Text.StripWhitespace(Text.Upper(Text.Trim(raw)))
  }

  /** The trim is subsumed: normalising keeps exactly the non-white-space characters, upper-cased, in order. */
  lemma NormalizeKeepsVisible(raw: string)
    ensures Normalize(raw) == Text.Upper(Text.StripWhitespace(raw))
  {
    Text.StripUpper(Text.Trim(raw));
    Text.StripTrim(raw);
  }

  /** Normalising an already normalised identifier changes nothing. */
  lemma NormalizeIdempotent(raw: string)
    ensures Normalize(Normalize(raw)) == Normalize(raw)
  {
    var clean := Normalize(raw);
    Text.TrimNoWhitespace(clean);
    Text.UpperNoLower(clean);
    Text.StripNoWhitespace(clean);
  }

  /** White space anywhere in the input, inside the identifier too, does not count. */
  lemma NormalizeIgnoresWhitespace(before: string, w: char, after: string)
    requires Text.IsWhitespace(w)
    ensures Normalize(before + [w] + after) == Normalize(before + after)
  {
    NormalizeKeepsVisible(before + [w] + after);
    NormalizeKeepsVisible(before + after);
    Text.StripSkips(before, w, after);
  }

  /** Lower-case input is upper-cased: "temu1234567" becomes the valid identifier "TEMU1234567". */
  lemma NormalizeExample()
    ensures Normalize("temu1234567") == "TEMU1234567"
    ensures |Normalize("temu1234567")| == IdentifierLength
  {
    var raw := "temu1234567";
    Text.StripNoWhitespace(raw);
    NormalizeKeepsVisible(raw);
    UpperExample(raw);
  }

  lemma UpperExample(raw: string)
    requires raw == "temu1234567"
    ensures Text.Upper(raw) == "TEMU1234567"
  {
    var u := Text.Upper(raw);
    assert u[0] == 'T' && u[1] == 'E' && u[2] == 'M' && u[3] == 'U';
    assert u[4] == '1' && u[5] == '2' && u[6] == '3' && u[7] == '4' && u[8] == '5' && u[9] == '6' && u[10] == '7';
  }

  // ---------------------------------------------------------------------------
  // The reply to the lookup request and the message shown for it
  // ---------------------------------------------------------------------------

  /** What `fetch` and `res.json()` give the handler. */
  datatype Reply =
    | Ok(body: ContainerInfo)                         // `res.ok`, the parsed body
    | NotOk(status: nat, errorField: Option<string>)  // not `res.ok`: the status and the body's `error` field
    | Exception(message: string)                      // `fetch` or `res.json()` threw

  /** The message of the error the `try` block throws, or `None` when it runs to the end. */
  function Raised(reply: Reply): (m: Option<string>)
    ensures m.None? <==> reply.Ok?
    ensures reply.NotOk? ==> m.Some? && m.value != ""
  {
    match reply
    case Ok(_) => None
    case NotOk(status, errorField) => Some(Text.OrElse(errorField, StatusPrefix + Text.Decimal(status)))
    case Exception(message) => Some(message)
  }

  /** The text the `catch` block stores in `error`: the thrown message, or the generic one when it is empty. */
  function FailureMessage(reply: Reply): (m: Option<string>)
    ensures m.None? <==> reply.Ok?
    ensures m.Some? ==> m.value != ""
  {
    match Raised(reply)
    case None => None
    case Some(message) => Some(Text.OrElse(Some(message), GenericFailure))
  }

  /** A failure status shows the body's `error` field when it is non-empty, otherwise "Error: " and the status. */
  lemma NotOkMessage(status: nat, errorField: Option<string>)
    ensures FailureMessage(NotOk(status, errorField))
         == Some(if errorField.Some? && errorField.value != "" then errorField.value else "Error: " + Text.Decimal(status))
  {
  }

  /** An exception shows its own message when it is non-empty, otherwise "Something went wrong". */
  lemma ExceptionMessage(message: string)
    ensures FailureMessage(Exception(message)) == Some(if message != "" then message else "Something went wrong")
  {
  }

  /** The status shown in "Error: <status>" can be read back from the message. */
  lemma StatusMessageNamesStatus(status: nat)
    ensures var m := FailureMessage(NotOk(status, None)).value;
      |m| > |StatusPrefix| && m[..|StatusPrefix|] == StatusPrefix &&
      (forall i :: |StatusPrefix| <= i < |m| ==> Text.IsDigit(m[i])) &&
      Text.DecimalValue(m[|StatusPrefix|..]) == status
  {
    var m := FailureMessage(NotOk(status, None)).value;
    assert m == StatusPrefix + Text.Decimal(status);
    assert m[|StatusPrefix|..] == Text.Decimal(status);
    Text.DecimalRoundTrip(status);
  }

  /** "Something went wrong" is shown only for an exception with an empty message, unless the source's own text says it. */
  lemma GenericFailureOnlyForEmptyException(reply: Reply)
    requires FailureMessage(reply) == Some("Something went wrong")
    ensures reply == Exception("") || reply == Exception("Something went wrong")
         || reply == NotOk(reply.status, Some("Something went wrong"))
  {
    if reply.NotOk? {
      var m := StatusPrefix + Text.Decimal(reply.status);
      assert m[0] == 'E';
    }
  }

  // ---------------------------------------------------------------------------
  // The form's state cells and its handlers
  // ---------------------------------------------------------------------------

  class LookupForm {
    var containerNumber: string
    var data: Option<ContainerInfo>
    var loading: bool
    var error: Option<string>
    var isOpen: bool

    /** The overlay is only ever open with a result to show. */
    ghost predicate Valid()
      reads this
    {
      isOpen ==> data.Some?
    }

    constructor ()
      ensures Valid()
      ensures containerNumber == "" && data == None && !loading && error == None && !isOpen
    {
      containerNumber, data, loading, error, isOpen := "", None, false, None, false;
    }

    /** The input's change handler: the field keeps what was typed, upper-cased. */
    method Edit(value: string)
      requires Valid()
      modifies this`containerNumber
      ensures Valid()
      ensures containerNumber == Text.Upper(value)
    {
      containerNumber := Text.Upper(value);
    }

    /** The submit button is disabled while a request is in flight or while the input is empty. */
    predicate SubmitDisabled()
      reads this
    {
      loading || containerNumber == ""
    }

    /**
     * The handler up to its `await`: an identifier that does not normalise to 11
     * characters only sets the length message and sends nothing; otherwise
     * `loading` is set, the old error cleared, and the normalised identifier is
     * the one request sent.
     */
    method Begin() returns (request: Option<string>)
      requires Valid()
      modifies this`loading, this`error
      ensures Valid()
      ensures var clean := Normalize(containerNumber);
        if |clean| != IdentifierLength then
          request == None && error == Some(LengthMessage) && loading == old(loading)
        else
          request == Some(clean) && loading && error == None
      ensures request.Some? ==> |request.value| == IdentifierLength && SubmitDisabled()
    {
      var clean := Normalize(containerNumber);
      if |clean| != IdentifierLength {
        error := Some(LengthMessage);
        return None;
      }
      loading := true;
      error := None;
      request := Some(clean);
      assert SubmitDisabled();
    }

    /**
     * The handler after its `await`: a good reply becomes `data` and opens the
     * overlay; any other reply leaves `data` and the overlay alone and sets the
     * failure message. `loading` ends false either way.
     */
    method Settle(reply: Reply)
      requires Valid() && loading
      modifies this`data, this`isOpen, this`error, this`loading
      ensures Valid()
      ensures !loading
      ensures SubmitDisabled() <==> containerNumber == ""
      ensures reply.Ok? ==> data == Some(reply.body) && isOpen && error == old(error)
      ensures !reply.Ok? ==> data == old(data) && isOpen == old(isOpen) && error == FailureMessage(reply)
    {
      var raised := Raised(reply);
      if raised.None? {
        data := Some(reply.body);
        isOpen := true;
      } else {
        error := Some(Text.OrElse(raised, GenericFailure));
      }
      loading := false;
    }

    /** The whole handler, for the reply the request would get. */
    method Submit(reply: Reply) returns (request: Option<string>)
      requires Valid()
      modifies this`data, this`isOpen, this`error, this`loading
      ensures Valid()
      ensures var clean := Normalize(containerNumber);
        if |clean| != IdentifierLength then
          request == None && error == Some(LengthMessage)
          && loading == old(loading) && data == old(data) && isOpen == old(isOpen)
        else
          request == Some(clean) && !loading
          && (reply.Ok? ==> data == Some(reply.body) && isOpen && error == None)
          && (!reply.Ok? ==> data == old(data) && isOpen == old(isOpen) && error == FailureMessage(reply))
    {
      ghost var clean := Normalize(containerNumber);
      request := Begin();
      if request.Some? {
        assert |clean| == IdentifierLength && error == None;
        Settle(reply);
      }
    }

    /** The overlay's close handler: only `isOpen` changes, the result is kept. */
    method Close()
      requires Valid()
      modifies this`isOpen
      ensures Valid() && !isOpen
    {
      isOpen := false;
    }

    /** What the overlay shows: nothing while closed, else the current result's title and rows. */
    function Overlay(): (v: Option<(string, seq<Row>)>)
      reads this
      requires Valid()
      ensures v.Some? <==> isOpen
      ensures v.Some? ==> v.value.0 == TitleOf(data).value && v.value.1 == Rows(data.value)
    {
      if isOpen then Some((TitleOf(data).value, Rows(data.value))) else None
    }
  }

  // ---------------------------------------------------------------------------
  // The result view
  // ---------------------------------------------------------------------------

  /** One line of the result overlay. */
  datatype Row =
    | StatusRow(status: string)
    | PolRow(pol: string)
    | PodRow(pod: string)
    | VesselRow(vessel: string, voyage: string)
    | EtaRow(arrivalDate: string)   // the raw date; its locale formatting is left to the host
    | DelayRow(delay: string)
    | Co2Row(co2: string)
    | LiveMapRow(url: string)

  /** The position of a row's kind in the view: Status, POL, POD, Vessel, ETA, Delay, CO2, then Live Map. */
  function Rank(row: Row): nat {
    match row
    case StatusRow(_) => 0
    case PolRow(_) => 1
    case PodRow(_) => 2
    case VesselRow(_, _) => 3
    case EtaRow(_) => 4
    case DelayRow(_) => 5
    case Co2Row(_) => 6
    case LiveMapRow(_) => 7
  }

  /** A JSX text slot: an absent value renders as nothing. */
  function Shown(field: Option<string>): string {
    field.GetOr("")
  }

  /** A JSX `field && ...` guard on a string field: absent and empty both hide the row. */
  predicate Present(field: Option<string>) {
    field.Some? && field.value != ""
  }

  /** The overlay's title: "Container " and the container number, when there is a result. */
  function TitleOf(data: Option<ContainerInfo>): (t: Option<string>)
    ensures t.Some? <==> data.Some?
    ensures t.Some? ==> |t.value| == |TitlePrefix| + |data.value.ContainerNumber|
                        && t.value[..|TitlePrefix|] == TitlePrefix
                        && t.value[|TitlePrefix|..] == data.value.ContainerNumber
  {
    if data.Some? then Some(TitlePrefix + data.value.ContainerNumber) else None
  }

  /** Row kinds strictly increase along `rows`: each kind at most once, in the view's order. */
  predicate Ordered(rows: seq<Row>) {
    forall i, j :: 0 <= i < j < |rows| ==> Rank(rows[i]) < Rank(rows[j])
  }

  lemma OrderedConcat(a: seq<Row>, b: seq<Row>)
    requires Ordered(a) && Ordered(b)
    requires forall x, y :: x in a && y in b ==> Rank(x) < Rank(y)
    ensures Ordered(a + b)
  {
    forall i, j | 0 <= i < j < |a + b|
      ensures Rank((a + b)[i]) < Rank((a + b)[j])
    {
      if j >= |a| && i < |a| {
        assert (a + b)[i] in a && (a + b)[j] in b;
      } else if i >= |a| {
        assert (a + b)[i] == b[i - |a|] && (a + b)[j] == b[j - |a|];
      }
    }
  }

  /** One JSX-guarded row: `row`'s value in front of `rest` when there is one, else `rest`. */
  function Guarded(row: Option<Row>, rest: seq<Row>): (rows: seq<Row>)
    ensures |rows| == |rest| + (if row.Some? then 1 else 0)
    ensures forall r :: r in rows <==> Some(r) == row || r in rest
  {
    if row.Some? then [row.value] + rest else rest
  }

  /** A row of kind `k` put in front of rows of later kinds keeps the rows ordered. */
  lemma GuardedOrdered(row: Option<Row>, rest: seq<Row>, k: nat)
    requires Ordered(rest) && forall r :: r in rest ==> k < Rank(r)
    requires row.Some? ==> Rank(row.value) == k
    ensures Ordered(Guarded(row, rest)) && forall r :: r in Guarded(row, rest) ==> k <= Rank(r)
  {
    var rows := Guarded(row, rest);
    if row.Some? {
      forall i, j | 0 <= i < j < |rows|
        ensures Rank(rows[i]) < Rank(rows[j])
      {
        assert rows[j] == rest[j - 1] && rows[j] in rest;
        if i > 0 {
          assert rows[i] == rest[i - 1];
        }
      }
    }
  }

  /** Whether `row` is one of the optional rows the result's fields call for. */
  predicate OptionalShown(info: ContainerInfo, row: Row) {
    match row
    case EtaRow(d) => info.ArrivalDate.Some? && d == info.ArrivalDate.value.Date
    case DelayRow(t) => Present(info.ETA) && t == info.ETA.value
    case Co2Row(t) => Present(info.Co2Emission) && t == info.Co2Emission.value
    case LiveMapRow(u) => Present(info.LiveMapUrl) && u == info.LiveMapUrl.value
    case _ => false
  }

  /** The rows behind the `&&` guards: ETA, Delay, CO2 and Live Map, each only when its field is there. */
  function OptionalRows(info: ContainerInfo): (rows: seq<Row>)
    ensures Ordered(rows)
    ensures forall r :: r in rows ==> 4 <= Rank(r)
    ensures |rows| == (if info.ArrivalDate.Some? then 1 else 0) + (if Present(info.ETA) then 1 else 0)
                      + (if Present(info.Co2Emission) then 1 else 0) + (if Present(info.LiveMapUrl) then 1 else 0)
  {
    var eta := if info.ArrivalDate.Some? then Some(EtaRow(info.ArrivalDate.value.Date)) else None;
    var delay := if Present(info.ETA) then Some(DelayRow(info.ETA.value)) else None;
    var co2 := if Present(info.Co2Emission) then Some(Co2Row(info.Co2Emission.value)) else None;
    var liveMap := if Present(info.LiveMapUrl) then Some(LiveMapRow(info.LiveMapUrl.value)) else None;
    var r3 := Guarded(liveMap, []);
    var r2 := Guarded(co2, r3);
    var r1 := Guarded(delay, r2);
    var r0 := Guarded(eta, r1);
    GuardedOrdered(liveMap, [], 7);
    GuardedOrdered(co2, r3, 6);
    GuardedOrdered(delay, r2, 5);
    GuardedOrdered(eta, r1, 4);
    r0
  }

  /** The rows of the result: four that always appear, then one per present optional field, each kind once and in order. */
  function Rows(info: ContainerInfo): (rows: seq<Row>)
    ensures 4 <= |rows| <= 8
    ensures rows[0] == StatusRow(info.Status) && rows[1] == PolRow(Shown(info.Pol)) && rows[2] == PodRow(Shown(info.Pod))
    ensures rows[3] == VesselRow(Shown(info.Vessel), Shown(info.VesselVoyage))
    ensures |rows| == 4 + (if info.ArrivalDate.Some? then 1 else 0) + (if Present(info.ETA) then 1 else 0)
                        + (if Present(info.Co2Emission) then 1 else 0) + (if Present(info.LiveMapUrl) then 1 else 0)
    ensures Ordered(rows)
    ensures rows[4..] == OptionalRows(info)
  {
    var fixed := [StatusRow(info.Status), PolRow(Shown(info.Pol)), PodRow(Shown(info.Pod)),
                  VesselRow(Shown(info.Vessel), Shown(info.VesselVoyage))];
    var optional := OptionalRows(info);
    assert forall r :: r in fixed ==> Rank(r) < 4;
    OrderedConcat(fixed, optional);
    fixed + optional
  }

  /** A row is among the optional rows exactly when the result's fields call for it. */
  lemma OptionalMember(info: ContainerInfo, r: Row)
    ensures r in OptionalRows(info) <==> OptionalShown(info, r)
  {
    var eta := if info.ArrivalDate.Some? then Some(EtaRow(info.ArrivalDate.value.Date)) else None;
    var delay := if Present(info.ETA) then Some(DelayRow(info.ETA.value)) else None;
    var co2 := if Present(info.Co2Emission) then Some(Co2Row(info.Co2Emission.value)) else None;
    var liveMap := if Present(info.LiveMapUrl) then Some(LiveMapRow(info.LiveMapUrl.value)) else None;
    var r3 := Guarded(liveMap, []);
    var r2 := Guarded(co2, r3);
    var r1 := Guarded(delay, r2);
    assert OptionalRows(info) == Guarded(eta, r1);
    assert r in OptionalRows(info) <==> Some(r) == eta || Some(r) == delay || Some(r) == co2 || Some(r) == liveMap;
  }

  /**
   * The ETA row appears exactly when an arrival date is present; the Delay, CO2
   * and Live Map rows exactly when their field is present and non-empty, each
   * with that field's text.
   */
  lemma RowsShown(info: ContainerInfo)
    ensures forall d :: EtaRow(d) in Rows(info) <==> info.ArrivalDate.Some? && d == info.ArrivalDate.value.Date
    ensures forall t :: DelayRow(t) in Rows(info) <==> Present(info.ETA) && t == info.ETA.value
    ensures forall t :: Co2Row(t) in Rows(info) <==> Present(info.Co2Emission) && t == info.Co2Emission.value
    ensures forall u :: LiveMapRow(u) in Rows(info) <==> Present(info.LiveMapUrl) && u == info.LiveMapUrl.value
  {
    var rows := Rows(info);
    forall r | 4 <= Rank(r)
      ensures r in rows <==> OptionalShown(info, r)
    {
      OptionalMember(info, r);
      assert rows == rows[..4] + rows[4..];
      assert r !in rows[..4];
    }
  }
}
