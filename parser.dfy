/**
 * The parser of the `home_auto_overview` table: two event handlers over a
 * three-field state (what the next text is captured as, the device id of the
 * current row, its name) that append one `DeviceInfo` per AIN cell.
 *
 * The tokeniser that turns HTML into start-tag and text events is not part of
 * this model; the handlers are driven by those events directly.
 */
module Parser {
  import opened Wrappers
  import opened Text

  /** The two values of `self.capture` other than `None`. */
  datatype Capture = CaptureName | CaptureAin

  /** `DeviceInfo(actor_id, device_id, name)`; the id and the name may still be `None`. */
  datatype DeviceInfo = DeviceInfo(actorId: string, deviceId: Option<int>, name: Option<string>)

  /** The handlers' fields and the result list, as one value. */
  datatype ParserState = ParserState(capture: Option<Capture>, deviceId: Option<int>,
                                     name: Option<string>, actors: seq<DeviceInfo>)

  /** The field values the constructor sets before it raises. */
  const Initial: ParserState := ParserState(None, None, None, [])

  /** The prefix of a row's `id`; only its length is used, the text itself is not checked. */
  const RowIdPrefix: string := "uiView_SHDevice_"

  /** `s[k:]`: empty when `s` is shorter than `k`. */
  function DropPrefix(s: string, k: nat): (r: string)
    ensures |r| == if |s| <= k then 0 else |s| - k
    ensures forall i :: 0 <= i < |r| ==> r[i] == s[k + i]
  {
    if |s| <= k then "" else s[k..]
  }

  /** `dict(attrs)`: one entry per attribute name, the last occurrence winning. */
  function AttrMap(attrs: seq<(string, string)>): map<string, string> {
    if attrs == [] then map[]
    else AttrMap(attrs[..|attrs| - 1])[attrs[|attrs| - 1].0 := attrs[|attrs| - 1].1]
  }

  /** The dictionary holds exactly the attribute names that occur, each with the value of its last occurrence. */
  lemma {:induction false} AttrMapLastWins(attrs: seq<(string, string)>, k: string)
    ensures k in AttrMap(attrs) <==> exists j :: 0 <= j < |attrs| && attrs[j].0 == k
    ensures forall j :: 0 <= j < |attrs| && attrs[j].0 == k && (forall t :: j < t < |attrs| ==> attrs[t].0 != k)
                        ==> k in AttrMap(attrs) && AttrMap(attrs)[k] == attrs[j].1
  {
    if attrs != [] {
      var init := attrs[..|attrs| - 1];
      AttrMapLastWins(init, k);
      assert forall j :: 0 <= j < |init| ==> init[j] == attrs[j];
      if k in AttrMap(attrs) && attrs[|attrs| - 1].0 != k {
        var j :| 0 <= j < |init| && init[j].0 == k;
        assert attrs[j].0 == k;
      }
    }
  }

  /**
   * `handle_starttag`. A `tr` with an `id` sets the device id to the integer
   * after the prefix, or fails when that text is no integer; a `td` of class
   * `c2` or `c3` starts capturing the name or the AIN.
   */
  function StartTag(st: ParserState, tag: string, attrs: seq<(string, string)>): Result<ParserState> {
    var d := AttrMap(attrs);
    if tag == "tr" && "id" in d then
      var text := DropPrefix(d["id"], |RowIdPrefix|);
      match PyInt(text)
      case None => Failure(NotAnInteger(text))
      case Some(id) => Success(st.(deviceId := Some(id)))
    else if tag == "td" && "class" in d && d["class"] == "c2" then Success(st.(capture := Some(CaptureName)))
    else if tag == "td" && "class" in d && d["class"] == "c3" then Success(st.(capture := Some(CaptureAin)))
    else Success(st)
  }

  /**
   * `handle_data`. Captured name text is stored stripped; captured AIN text
   * is appended, stripped and without blanks, with the row's id and name, and
   * the row's state is cleared. Other text changes nothing.
   */
  function Data(st: ParserState, data: string): ParserState {
    var st := if st.capture == Some(CaptureName) then st.(name := Some(Strip(data)), capture := None) else st;
    if st.capture == Some(CaptureAin) then
      ParserState(None, None, None, st.actors + [DeviceInfo(RemoveSpaces(Strip(data)), st.deviceId, st.name)])
    else st
  }

  /** A start tag never touches the name or the result list, and only a `tr` touches the device id. */
  lemma {:induction false} StartTagFrame(st: ParserState, tag: string, attrs: seq<(string, string)>)
    ensures StartTag(st, tag, attrs).Success? ==>
              StartTag(st, tag, attrs).value.actors == st.actors && StartTag(st, tag, attrs).value.name == st.name
    ensures tag != "tr" ==> StartTag(st, tag, attrs).Success? && StartTag(st, tag, attrs).value.deviceId == st.deviceId
    ensures tag != "tr" && tag != "td" ==> StartTag(st, tag, attrs) == Success(st)
  {
  }

  /** A row tag whose id is the prefix and a rendered number sets the device id to that number. */
  lemma {:induction false} StartTagRowId(st: ParserState, n: int)
    ensures StartTag(st, "tr", [("id", RowIdPrefix + IntString(n))]) == Success(st.(deviceId := Some(n)))
  {
    var attrs := [("id", RowIdPrefix + IntString(n))];
    assert AttrMap(attrs) == map["id" := RowIdPrefix + IntString(n)] by {
      assert attrs[..0] == [];
    }
    var text := DropPrefix(RowIdPrefix + IntString(n), |RowIdPrefix|);
    assert text == IntString(n);
    PyIntOfIntString(n);
  }

  /** A row tag whose id is too short for the prefix fails: `int('')` raises. */
  lemma {:induction false} StartTagShortId(st: ParserState, id: string)
    requires |id| <= |RowIdPrefix|
    ensures StartTag(st, "tr", [("id", id)]) == Failure(NotAnInteger(""))
  {
    var attrs := [("id", id)];
    assert AttrMap(attrs) == map["id" := id] by {
      assert attrs[..0] == [];
    }
    assert DropPrefix(id, |RowIdPrefix|) == "";
    assert TrimStart("") == "" && TrimEnd("") == "";
    assert PyInt("") == None;
  }

  /** A `td` of class `c2` captures the name and one of class `c3` the AIN, nothing else changing. */
  lemma {:induction false} StartTagCell(st: ParserState, cls: string)
    requires cls == "c2" || cls == "c3"
    ensures StartTag(st, "td", [("class", cls)])
            == Success(st.(capture := Some(if cls == "c2" then CaptureName else CaptureAin)))
  {
    var attrs := [("class", cls)];
    assert AttrMap(attrs) == map["class" := cls] by {
      assert attrs[..0] == [];
    }
  }

  /** Text outside a captured cell changes nothing. */
  lemma {:induction false} DataNoCapture(st: ParserState, data: string)
    requires st.capture.None?
    ensures Data(st, data) == st
  {
  }

  /** Name text is stored stripped, capture ends, and nothing is appended by the same event. */
  lemma {:induction false} DataName(st: ParserState, data: string)
    requires st.capture == Some(CaptureName)
    ensures Data(st, data) == st.(name := Some(Strip(data)), capture := None)
    ensures Data(st, data).actors == st.actors
  {
  }

  /** AIN text appends one record carrying the row's id and name, and clears the row's state. */
  lemma {:induction false} DataAin(st: ParserState, data: string)
    requires st.capture == Some(CaptureAin)
    ensures Data(st, data).actors == st.actors + [DeviceInfo(RemoveSpaces(Strip(data)), st.deviceId, st.name)]
    ensures Data(st, data).capture.None? && Data(st, data).deviceId.None? && Data(st, data).name.None?
    ensures ' ' !in Data(st, data).actors[|st.actors|].actorId
  {
  }

  /** One event from the tokeniser. */
  datatype Event = StartTagEvent(tag: string, attrs: seq<(string, string)>) | DataEvent(data: string)

  function Step(st: ParserState, e: Event): Result<ParserState> {
    match e
    case StartTagEvent(tag, attrs) => StartTag(st, tag, attrs)
    case DataEvent(data) => Success(Data(st, data))
  }

  /** The handlers run over a stream of events, stopping at the first that raises. */
  function Run(st: ParserState, events: seq<Event>): Result<ParserState>
    decreases |events|
  {
    if events == [] then Success(st)
    else
      match Step(st, events[0])
      case Failure(e) => Failure(e)
      case Success(next) => Run(next, events[1..])
  }

  /** How many text events a stream holds. */
  function DataEvents(events: seq<Event>): nat {
    if events == [] then 0 else (if events[0].DataEvent? then 1 else 0) + DataEvents(events[1..])
  }

  /** No actor id holds a blank: `replace(' ', '')` removed them all. */
  predicate NoBlankIds(actors: seq<DeviceInfo>) {
    forall i :: 0 <= i < |actors| ==> ' ' !in actors[i].actorId
  }

  /**
   * The result list only grows: the records already found stay in place, at
   * most one is added per text event, and every actor id is free of blanks.
   */
  lemma {:induction false} RunGrows(st: ParserState, events: seq<Event>)
    requires Run(st, events).Success? && NoBlankIds(st.actors)
    decreases |events|
    ensures |st.actors| <= |Run(st, events).value.actors| <= |st.actors| + DataEvents(events)
    ensures Run(st, events).value.actors[..|st.actors|] == st.actors
    ensures NoBlankIds(Run(st, events).value.actors)
  {
    if events != [] {
      var next := Step(st, events[0]).value;
      if events[0].StartTagEvent? {
        StartTagFrame(st, events[0].tag, events[0].attrs);
      } else if Data(st, events[0].data).actors != st.actors {
        var data := events[0].data;
        var s1 := if st.capture == Some(CaptureName) then st.(name := Some(Strip(data)), capture := None) else st;
        assert s1.capture == Some(CaptureAin);
        DataAin(s1, data);
      }
      RunGrows(next, events[1..]);
      var fin := Run(st, events).value.actors;
      assert fin[..|next.actors|] == next.actors;
      assert fin[..|st.actors|] == fin[..|next.actors|][..|st.actors|];
    }
  }

  /** Running two streams one after the other is running their concatenation. */
  lemma {:induction false} RunAppend(st: ParserState, a: seq<Event>, b: seq<Event>)
    decreases |a|
    ensures Run(st, a + b) == match Run(st, a)
                              case Failure(e) => Failure(e)
                              case Success(mid) => Run(mid, b)
  {
    if a == [] {
      assert a + b == b;
    } else {
      assert (a + b)[0] == a[0];
      assert (a + b)[1..] == a[1..] + b;
      match Step(st, a[0])
      case Failure(e) =>
      case Success(next) =>
        RunAppend(next, a[1..], b);
    }
  }

  /** The start tag of a row whose id renders `n`. */
  function RowStart(n: int): seq<Event> {
    [StartTagEvent("tr", [("id", RowIdPrefix + IntString(n))])]
  }

  /** The name cell: its start tag, then its text. */
  function NameCell(name: string): seq<Event> {
    [StartTagEvent("td", [("class", "c2")])] + [DataEvent(name)]
  }

  /** The AIN cell: its start tag, then its text. */
  function AinCell(ain: string): seq<Event> {
    [StartTagEvent("td", [("class", "c3")])] + [DataEvent(ain)]
  }

  /** The events of one table row. */
  function RowEvents(n: int, name: string, ain: string): seq<Event> {
    RowStart(n) + (NameCell(name) + AinCell(ain))
  }

  /** A successful first step moves the run on to the rest of the events. */
  lemma {:induction false} RunCons(st: ParserState, e: Event, rest: seq<Event>, next: ParserState)
    requires Step(st, e) == Success(next)
    ensures Run(st, [e] + rest) == Run(next, rest)
  {
    assert ([e] + rest)[1..] == rest;
  }

  /** A stream of one successful event ends in that event's state. */
  lemma {:induction false} RunOne(st: ParserState, e: Event, next: ParserState)
    requires Step(st, e) == Success(next)
    ensures Run(st, [e]) == Success(next)
  {
    assert [e][1..] == [];
  }

  /** The row's start tag sets the device id and nothing else. */
  lemma {:induction false} RunRowStart(st: ParserState, n: int)
    ensures Run(st, RowStart(n)) == Success(st.(deviceId := Some(n)))
  {
    StartTagRowId(st, n);
    RunOne(st, StartTagEvent("tr", [("id", RowIdPrefix + IntString(n))]), st.(deviceId := Some(n)));
  }

  /** A name cell stores the stripped name and ends capturing. */
  lemma {:induction false} RunNameCell(st: ParserState, name: string)
    ensures Run(st, NameCell(name)) == Success(st.(name := Some(Strip(name)), capture := None))
  {
    var s1 := st.(capture := Some(CaptureName));
    var s2 := s1.(name := Some(Strip(name)), capture := None);
    StartTagCell(st, "c2");
    assert Data(s1, name) == s2;
    RunOne(s1, DataEvent(name), s2);
    RunCons(st, StartTagEvent("td", [("class", "c2")]), [DataEvent(name)], s1);
  }

  /** An AIN cell appends the record and clears the row's state. */
  lemma {:induction false} RunAinCell(st: ParserState, ain: string)
    ensures Run(st, AinCell(ain))
            == Success(ParserState(None, None, None, st.actors + [DeviceInfo(RemoveSpaces(Strip(ain)), st.deviceId, st.name)]))
  {
    var s1 := st.(capture := Some(CaptureAin));
    var s2 := ParserState(None, None, None, st.actors + [DeviceInfo(RemoveSpaces(Strip(ain)), st.deviceId, st.name)]);
    StartTagCell(st, "c3");
    assert Data(s1, ain) == s2;
    RunOne(s1, DataEvent(ain), s2);
    RunCons(st, StartTagEvent("td", [("class", "c3")]), [DataEvent(ain)], s1);
  }

  /** A row read from a clear state appends the record of its AIN, id and name, and leaves the state clear. */
  lemma {:induction false} RowAppendsRecord(st: ParserState, n: int, name: string, ain: string)
    requires st.capture.None? && st.deviceId.None? && st.name.None?
    ensures Run(st, RowEvents(n, name, ain))
            == Success(ParserState(None, None, None,
                                   st.actors + [DeviceInfo(RemoveSpaces(Strip(ain)), Some(n), Some(Strip(name)))]))
  {
    var s1 := st.(deviceId := Some(n));
    var s2 := s1.(name := Some(Strip(name)), capture := None);
    RunRowStart(st, n);
    RunAppend(st, RowStart(n), NameCell(name) + AinCell(ain));
    RunNameCell(s1, name);
    RunAppend(s1, NameCell(name), AinCell(ain));
    RunAinCell(s2, ain);
  }

  /** The parser object: `HandleStartTag` and `HandleData` update its fields as the step functions say. */
  class HomeAutoOverviewParser {
    var capture: Option<Capture>
    var deviceId: Option<int>
    var name: Option<string>
    var actors: seq<DeviceInfo>

    function State(): ParserState
      reads this
    {
      ParserState(capture, deviceId, name, actors)
    }

    /** The field values of the constructor, which in `parser.py` raises right after setting them. */
    constructor ()
      ensures State() == Initial
    {
      capture := None;
      deviceId := None;
      name := None;
      actors := [];
    }

    /** `handle_starttag`; a ValueError from `int()` comes back as the error and leaves the fields as they were. */
    method HandleStartTag(tag: string, attrs: seq<(string, string)>) returns (err: Option<Error>)
      modifies this
      ensures StartTag(old(State()), tag, attrs).Success? ==> err.None? && State() == StartTag(old(State()), tag, attrs).value
      ensures StartTag(old(State()), tag, attrs).Failure? ==>
                err == Some(StartTag(old(State()), tag, attrs).error) && State() == old(State())
    {
      var d := AttrMap(attrs);
      if tag == "tr" && "id" in d {
        var text := DropPrefix(d["id"], |RowIdPrefix|);
        var id := PyInt(text);
        if id.None? {
          return Some(NotAnInteger(text));
        }
        deviceId := Some(id.value);
      }
      if tag == "td" && "class" in d && d["class"] == "c2" {
        capture := Some(CaptureName);
      }
      if tag == "td" && "class" in d && d["class"] == "c3" {
        capture := Some(CaptureAin);
      }
      return None;
    }

    /** `handle_data`. */
    method HandleData(data: string)
      modifies this
      ensures State() == Data(old(State()), data)
    {
      var c, id, n, found := capture, deviceId, name, actors;
      if c == Some(CaptureName) {
        n := Some(Strip(data));
        c := None;
      }
      if c == Some(CaptureAin) {
        var ain := RemoveSpaces(Strip(data));
        found := found + [DeviceInfo(ain, id, n)];
        c, id, n := None, None, None;
      }
      capture, deviceId, name, actors := c, id, n, found;
    }
  }
}
