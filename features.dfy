/**
 * The pure part of the dashboard client (frontend/src/App.js): the feature
 * record it sends, the presets, the trend history and live buffer rules,
 * the chart labels, the CSV row mapping and the live-connection controls.
 */
module Features {
  import opened Fields
  import opened Values

  /** An entry of the trend history: 1 for an attack, 0 for normal traffic. */
  type Bit = x: int | 0 <= x <= 1

  /** A CSV data row as the CSV parser hands it over: column to cell text. */
  type CsvRow = map<Key, string>

  // ---------------------------------------------------------------- the feature record

  /** The fields of the editable form. */
  const FormFields: set<Field> := {Duration, ProtocolType, Service, Flag, SrcBytes, DstBytes}

  /** The form fields that `buildFullFeatures` passes through `Number`. */
  const NumericFormFields: set<Field> := {Duration, SrcBytes, DstBytes}

  /** The form fields that `buildFullFeatures` copies verbatim. */
  const CategoricalFormFields: set<Field> := {ProtocolType, Service, Flag}

  /**
   * The constant the client sends for each of the other 35 features: every
   * one is 0 except `logged_in`, which is 1, the four connection counts,
   * which are 5, and the two same-service rates, which are 1.0.
   */
  function FixedValue(f: Field): Value {
    if f == LoggedIn || f == SameSrvRate || f == DstHostSameSrvRate then Num(1.0)
    else if f == Count || f == SrvCount || f == DstHostCount || f == DstHostSrvCount then Num(5.0)
    else Num(0.0)
  }

  /**
   * `buildFullFeatures`: expands a form (or a CSV row) into the full record.
   * Its keys are the 41 features and nothing else. Three fields are coerced
   * with `Number`, three are copied as they are (a missing one reads as
   * `undefined`), and the other 35 are constants.
   */
  function BuildFullFeatures(d: Object, parse: string -> JsNumber): (r: Object)
    ensures forall k :: k in r <==> k.Known?
    ensures forall f :: f in NumericFormFields ==> r[Known(f)] == ToNumber(Get(d, Known(f)), parse)
    ensures forall f :: f in CategoricalFormFields ==> r[Known(f)] == Get(d, Known(f))
    ensures forall f :: f !in FormFields ==> r[Known(f)] == FixedValue(f)
  {
    map f | f in AllFields ::
      Known(f) := (if f in NumericFormFields then ToNumber(Get(d, Known(f)), parse)
                   else if f in CategoricalFormFields then Get(d, Known(f))
                   else FixedValue(f))
  }

  /** The record has exactly 41 fields, whatever the form holds. */
  lemma RecordHas41Fields(d: Object, parse: string -> JsNumber)
    ensures |BuildFullFeatures(d, parse)| == 41
  {
    var r := BuildFullFeatures(d, parse);
    AllFieldsCount();
    KnownKeysCount(AllFields);
    assert r.Keys == KnownKeys(AllFields);
  }

  /**
   * Some of the constants: the client claims a logged-in session, five
   * connections to the same host and service, and a same-service rate of 1.
   */
  lemma RecordConstants(d: Object, parse: string -> JsNumber)
    ensures var r := BuildFullFeatures(d, parse);
      && r[Known(LoggedIn)] == Num(1.0) && r[Known(Count)] == Num(5.0)
      && r[Known(DstHostCount)] == Num(5.0) && r[Known(SameSrvRate)] == Num(1.0)
      && r[Known(Land)] == Num(0.0) && r[Known(SerrorRate)] == Num(0.0)
  {
  }

  /** Only the six form fields of the input matter; any other key is ignored. */
  lemma BuildFullFeaturesReadsOnlyFormFields(d1: Object, d2: Object, parse: string -> JsNumber)
    requires forall f :: f in FormFields ==> Get(d1, Known(f)) == Get(d2, Known(f))
    ensures BuildFullFeatures(d1, parse) == BuildFullFeatures(d2, parse)
  {
    var r1, r2 := BuildFullFeatures(d1, parse), BuildFullFeatures(d2, parse);
    forall k | k in r1 ensures r2[k] == r1[k] {
      assert Get(d1, k) == Get(d2, k) || k.field !in FormFields;
    }
  }

  // ---------------------------------------------------------------- the form and its presets

  /** The form the dashboard starts with. */
  const InitialForm: Object := map[
    Known(Duration) := Num(0.0), Known(ProtocolType) := Str("tcp"), Known(Service) := Str("http"),
    Known(Flag) := Str("SF"), Known(SrcBytes) := Num(0.0), Known(DstBytes) := Num(0.0)]

  /** The "Normal Example" preset: an HTTP session with a normal byte count. */
  function NormalExample(): (f: Object)
    ensures f.Keys == KnownKeys(FormFields)
    ensures f[Known(ProtocolType)] == Str("tcp") && f[Known(Service)] == Str("http")
    ensures f[Known(Flag)] == Str("SF") && f[Known(Duration)] == Num(0.0)
    ensures f[Known(SrcBytes)] == Num(181.0) && f[Known(DstBytes)] == Num(5450.0)
  {
    map[Known(Duration) := Num(0.0), Known(ProtocolType) := Str("tcp"), Known(Service) := Str("http"),
        Known(Flag) := Str("SF"), Known(SrcBytes) := Num(181.0), Known(DstBytes) := Num(5450.0)]
  }

  /** The "Attack Example" preset: a rejected ICMP echo with no payload. */
  function AttackExample(): (f: Object)
    ensures f.Keys == KnownKeys(FormFields)
    ensures f[Known(ProtocolType)] == Str("icmp") && f[Known(Service)] == Str("ecr_i")
    ensures f[Known(Flag)] == Str("REJ") && f[Known(Duration)] == Num(0.0)
    ensures f[Known(SrcBytes)] == Num(0.0) && f[Known(DstBytes)] == Num(0.0)
  {
    map[Known(Duration) := Num(0.0), Known(ProtocolType) := Str("icmp"), Known(Service) := Str("ecr_i"),
        Known(Flag) := Str("REJ"), Known(SrcBytes) := Num(0.0), Known(DstBytes) := Num(0.0)]
  }

  /**
   * A form edit: `{ ...form, [name]: value }`. An input element reports its
   * value as a string.
   */
  function EditField(form: Object, name: Key, value: string): (f: Object)
    ensures f.Keys == form.Keys + {name}
    ensures f[name] == Str(value)
    ensures forall k :: k in form && k != name ==> f[k] == form[k]
  {
    form[name := Str(value)]
  }

  /**
   * An edit of one form field changes exactly that field of the record: to
   * the number the text reads as for a numeric field, to the text itself
   * for a categorical one.
   */
  lemma EditChangesOneFeature(form: Object, name: Field, value: string, parse: string -> JsNumber)
    requires name in FormFields
    ensures var before, after := BuildFullFeatures(form, parse), BuildFullFeatures(EditField(form, Known(name), value), parse);
      && after.Keys == before.Keys
      && after[Known(name)] == (if name in NumericFormFields then parse(value) else Str(value))
      && forall k :: k in after && k != Known(name) ==> after[k] == before[k]
  {
    var edited := EditField(form, Known(name), value);
    var before, after := BuildFullFeatures(form, parse), BuildFullFeatures(edited, parse);
    assert Get(edited, Known(name)) == Str(value);
    forall k | k in after && k != Known(name) ensures after[k] == before[k] {
      assert Get(edited, k) == Get(form, k);
    }
  }

  /** An edit of a key that is not a form field leaves the record as it was. */
  lemma EditOfOtherKeyKeepsRecord(form: Object, name: Key, value: string, parse: string -> JsNumber)
    requires !(name.Known? && name.field in FormFields)
    ensures BuildFullFeatures(EditField(form, name, value), parse) == BuildFullFeatures(form, parse)
  {
    forall f | f in FormFields ensures Get(EditField(form, name, value), Known(f)) == Get(form, Known(f)) {
    }
    BuildFullFeaturesReadsOnlyFormFields(EditField(form, name, value), form, parse);
  }

  // ---------------------------------------------------------------- trend history and chart

  /** The member of a reply or live packet that the trend chart reads. */
  const IsIntrusionKey: Key := Other("is_intrusion")

  /** The flag a reply or a live packet contributes: `is_intrusion ? 1 : 0`. */
  function IntrusionFlag(reply: Object): (f: Bit)
    ensures f == 1 <==> Truthy(Get(reply, IsIntrusionKey))
  {
    if Truthy(Get(reply, IsIntrusionKey)) then 1 else 0
  }

  /**
   * The trend history after recording one reply on top of `current`, as the
   * live handler does with `setHistory(prev => [...prev, flag])`.
   */
  function RecordFlag(current: seq<Bit>, reply: Object): (h: seq<Bit>)
    ensures |h| == |current| + 1
    ensures h[..|current|] == current
    ensures h[|current|] == IntrusionFlag(reply)
  {
    current + [IntrusionFlag(reply)]
  }

  /** The trend history after recording a series of replies, oldest first. */
  function RecordFlags(current: seq<Bit>, replies: seq<Object>): seq<Bit>
    decreases |replies|
  {
    if replies == [] then current
    else RecordFlags(RecordFlag(current, replies[0]), replies[1..])
  }

  /**
   * History is append-only: after n recorded replies it has grown by exactly
   * n entries, the old entries are untouched and entry |current| + i is the
   * flag of the i-th reply.
   */
  lemma {:induction false} RecordFlagsAppends(current: seq<Bit>, replies: seq<Object>)
    ensures |RecordFlags(current, replies)| == |current| + |replies|
    ensures RecordFlags(current, replies)[..|current|] == current
    ensures forall i :: 0 <= i < |replies| ==>
      RecordFlags(current, replies)[|current| + i] == IntrusionFlag(replies[i])
    decreases |replies|
  {
    if replies != [] {
      var next := RecordFlag(current, replies[0]);
      RecordFlagsAppends(next, replies[1..]);
      var h := RecordFlags(current, replies);
      assert h == RecordFlags(next, replies[1..]);
      assert h[..|current|] == next[..|next|][..|current|];
      forall i | 0 <= i < |replies|
        ensures h[|current| + i] == IntrusionFlag(replies[i])
      {
        if i > 0 {
          assert h[|next| + (i - 1)] == IntrusionFlag(replies[1..][i - 1]);
        } else {
          assert h[..|next|] == next;
        }
      }
    }
  }

  /**
   * The history update `predict` performs as written: `[...history, flag]`
   * with the `history` its closure captured before the request went out,
   * whatever the history has become by the time the reply arrives.
   */
  function PredictHistoryAsWritten(captured: seq<Bit>, current: seq<Bit>, reply: Object): seq<Bit> {
    captured + [IntrusionFlag(reply)]
  }

  /**
   * When a live packet is recorded while a prediction is in flight, the
   * as-written update throws that packet's flag away: the history ends one
   * entry short of what the functional update gives.
   */
  lemma StaleHistoryDropsLiveFlags(captured: seq<Bit>, live: seq<Object>, reply: Object)
    requires live != []
    ensures var current := RecordFlags(captured, live);
      && |PredictHistoryAsWritten(captured, current, reply)| == |captured| + 1
      && |RecordFlag(current, reply)| == |captured| + |live| + 1
      && PredictHistoryAsWritten(captured, current, reply) != RecordFlag(current, reply)
  {
    RecordFlagsAppends(captured, live);
  }

  /** The smallest instance: an attack arrives live while a normal reply is pending. */
  lemma StaleHistoryExample()
    ensures var attack, normal := map[IsIntrusionKey := Bool(true)], map[IsIntrusionKey := Bool(false)];
      && RecordFlag([], attack) == [1]
      && PredictHistoryAsWritten([], [1], normal) == [0]
      && RecordFlag([1], normal) == [1, 0]
  {
  }

  /**
   * With no event in between, the captured history is the current one and
   * the as-written update agrees with the functional one used by the model.
   */
  lemma PredictHistoryAgreesWhenAlone(h: seq<Bit>, reply: Object)
    ensures PredictHistoryAsWritten(h, h, reply) == RecordFlag(h, reply)
  {
  }

  /** The x-axis labels of the trend chart: `history.map((_, i) => i + 1)`. */
  function ChartLabels(h: seq<Bit>): (r: seq<int>)
    ensures |r| == |h|
    ensures forall i :: 0 <= i < |r| ==> r[i] == i + 1
  {
    seq(|h|, i => i + 1)
  }

  /** A new history entry adds the next label and keeps the existing ones. */
  lemma ChartLabelsExtend(h: seq<Bit>, f: Bit)
    ensures ChartLabels(h + [f]) == ChartLabels(h) + [|h| + 1]
  {
    assert |ChartLabels(h + [f])| == |ChartLabels(h) + [|h| + 1]|;
  }

  // ---------------------------------------------------------------- the live buffer

  /** How many live packets the dashboard keeps. */
  const LiveCapacity: nat := 50

  function Min(a: int, b: int): int { if a < b then a else b }

  /**
   * One live message on the buffer: `[packet, ...prev.slice(0, 49)]`. The new
   * packet is first, the 49 most recent earlier ones follow in order, and
   * anything older is dropped.
   */
  function PushLive<T>(buf: seq<T>, p: T): (r: seq<T>)
    ensures |r| == Min(|buf|, LiveCapacity - 1) + 1
    ensures |r| <= LiveCapacity
    ensures r[0] == p
    ensures forall i :: 1 <= i < |r| ==> r[i] == buf[i - 1]
  {
    [p] + buf[..Min(|buf|, LiveCapacity - 1)]
  }

  /** The live buffer after the packets `ps` arrived in this order on an empty one. */
  function LiveFeed<T>(ps: seq<T>): seq<T> {
    if ps == [] then [] else PushLive(LiveFeed(ps[..|ps| - 1]), ps[|ps| - 1])
  }

  /**
   * Whatever the number of messages, the buffer holds the most recent
   * min(n, 50) packets, newest first.
   */
  lemma {:induction false} LiveFeedKeepsLatest<T>(ps: seq<T>)
    ensures |LiveFeed(ps)| == Min(|ps|, LiveCapacity)
    ensures forall i :: 0 <= i < |LiveFeed(ps)| ==> LiveFeed(ps)[i] == ps[|ps| - 1 - i]
  {
    if ps != [] {
      var init := ps[..|ps| - 1];
      LiveFeedKeepsLatest(init);
      var r := LiveFeed(ps);
      assert r == PushLive(LiveFeed(init), ps[|ps| - 1]);
      forall i | 0 <= i < |r| ensures r[i] == ps[|ps| - 1 - i] {
        if i > 0 {
          assert r[i] == LiveFeed(init)[i - 1] == init[|init| - 1 - (i - 1)];
        }
      }
    }
  }

  // ---------------------------------------------------------------- CSV batch

  /** A CSV row as an object: every cell is a string. */
  function CsvObject(row: CsvRow): (o: Object)
    ensures o.Keys == row.Keys
    ensures forall k :: k in row ==> o[k] == Str(row[k])
  {
    map k | k in row :: Str(row[k])
  }

  /** `res.data.map(buildFullFeatures)`: the records of a CSV batch. */
  function BatchRecords(rows: seq<CsvRow>, parse: string -> JsNumber): (r: seq<Object>)
    ensures |r| == |rows|
    ensures forall i :: 0 <= i < |rows| ==> r[i] == BuildFullFeatures(CsvObject(rows[i]), parse)
  {
    if rows == [] then [] else [BuildFullFeatures(CsvObject(rows[0]), parse)] + BatchRecords(rows[1..], parse)
  }

  /** Splitting a file into two parts splits the batch the same way. */
  lemma {:induction false} BatchRecordsAppend(a: seq<CsvRow>, b: seq<CsvRow>, parse: string -> JsNumber)
    ensures BatchRecords(a + b, parse) == BatchRecords(a, parse) + BatchRecords(b, parse)
  {
    if a != [] {
      assert (a + b)[1..] == a[1..] + b;
      BatchRecordsAppend(a[1..], b, parse);
    } else {
      assert a + b == b;
    }
  }

  // ---------------------------------------------------------------- the live connection

  datatype LiveStatus = Disconnected | Connected

  /** The events that move the connection status. */
  datatype LiveEvent = StartPressed | Opened | Closed | StopPressed

  /**
   * The status after an event: `onopen` connects and `onclose` and
   * `stopLiveStream` disconnect whatever the status was; pressing start only
   * opens a socket and leaves the status to the socket's own events.
   */
  function NextStatus(s: LiveStatus, e: LiveEvent): (r: LiveStatus)
    ensures e == Opened ==> r == Connected
    ensures e == Closed || e == StopPressed ==> r == Disconnected
    ensures e == StartPressed ==> r == s
  {
    match e
    case StartPressed => s
    case Opened => Connected
    case Closed => Disconnected
    case StopPressed => Disconnected
  }

  /** The status after a series of events. */
  function RunStatus(s: LiveStatus, es: seq<LiveEvent>): LiveStatus
    decreases |es|
  {
    if es == [] then s else RunStatus(NextStatus(s, es[0]), es[1..])
  }

  /**
   * The status is connected exactly when the last event other than a start
   * was an open, or there was none and the status already was connected.
   */
  lemma {:induction false} RunStatusFollowsLastEvent(s: LiveStatus, es: seq<LiveEvent>)
    ensures RunStatus(s, es) == Connected <==>
      ((exists i :: 0 <= i < |es| && es[i] == Opened && forall j :: i < j < |es| ==> es[j] == StartPressed)
       || (s == Connected && forall j :: 0 <= j < |es| ==> es[j] == StartPressed))
    decreases |es|
  {
    if es != [] {
      var t := es[1..];
      RunStatusFollowsLastEvent(NextStatus(s, es[0]), t);
      assert forall j :: 0 < j < |es| ==> es[j] == t[j - 1];
      if RunStatus(s, es) == Connected {
        if exists i :: 0 <= i < |t| && t[i] == Opened && forall j :: i < j < |t| ==> t[j] == StartPressed {
          var i :| 0 <= i < |t| && t[i] == Opened && forall j :: i < j < |t| ==> t[j] == StartPressed;
          assert es[i + 1] == Opened && forall j :: i + 1 < j < |es| ==> es[j] == StartPressed;
        } else if es[0] == Opened {
          assert forall j :: 0 < j < |es| ==> es[j] == StartPressed;
        }
      } else {
        forall i | 0 <= i < |es| && es[i] == Opened
          ensures exists j :: i < j < |es| && es[j] != StartPressed
        {
          if i > 0 {
            assert t[i - 1] == Opened;
            var j :| i - 1 < j < |t| && t[j] != StartPressed;
            assert es[j + 1] != StartPressed;
          } else {
            var j :| 0 <= j < |t| && t[j] != StartPressed;
            assert es[j + 1] != StartPressed;
          }
        }
      }
    }
  }

  /** Which of the two live-mode buttons the page enables. */
  datatype LiveControls = LiveControls(startEnabled: bool, stopEnabled: bool)

  /**
   * Start is disabled only while connected and stop only while disconnected,
   * so exactly one of the two can be pressed.
   */
  function ControlsFor(s: LiveStatus): (c: LiveControls)
    ensures c.startEnabled <==> s == Disconnected
    ensures c.stopEnabled <==> s == Connected
    ensures c.startEnabled != c.stopEnabled
  {
    LiveControls(s != Connected, s != Disconnected)
  }
}
