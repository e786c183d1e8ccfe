/** Optional values and results with an error, shared by every module. */
module Wrappers {
  datatype Option<T> = None | Some(value: T)

  datatype Result<T, E> = Ok(value: T) | Err(error: E)
}

/**
 * The 41 connection features of a network-traffic record. A feature is its
 * position in the order in which the dashboard, the API schema and the
 * trained model all list them; the constants below name the positions.
 */
module Fields {
  const FieldCount: nat := 41

  type Field = i: int | 0 <= i < FieldCount

  const Duration: Field := 0
  const ProtocolType: Field := 1
  const Service: Field := 2
  const Flag: Field := 3
  const SrcBytes: Field := 4
  const DstBytes: Field := 5
  const Land: Field := 6
  const WrongFragment: Field := 7
  const Urgent: Field := 8
  const Hot: Field := 9
  const NumFailedLogins: Field := 10
  const LoggedIn: Field := 11
  const NumCompromised: Field := 12
  const RootShell: Field := 13
  const SuAttempted: Field := 14
  const NumRoot: Field := 15
  const NumFileCreations: Field := 16
  const NumShells: Field := 17
  const NumAccessFiles: Field := 18
  const NumOutboundCmds: Field := 19
  const IsHostLogin: Field := 20
  const IsGuestLogin: Field := 21
  const Count: Field := 22
  const SrvCount: Field := 23
  const SerrorRate: Field := 24
  const SrvSerrorRate: Field := 25
  const RerrorRate: Field := 26
  const SrvRerrorRate: Field := 27
  const SameSrvRate: Field := 28
  const DiffSrvRate: Field := 29
  const SrvDiffHostRate: Field := 30
  const DstHostCount: Field := 31
  const DstHostSrvCount: Field := 32
  const DstHostSameSrvRate: Field := 33
  const DstHostDiffSrvRate: Field := 34
  const DstHostSameSrcPortRate: Field := 35
  const DstHostSrvDiffHostRate: Field := 36
  const DstHostSerrorRate: Field := 37
  const DstHostSrvSerrorRate: Field := 38
  const DstHostRerrorRate: Field := 39
  const DstHostSrvRerrorRate: Field := 40

  /** The JSON names of the features, in order. */
  const FieldNames: seq<string> := [
    "duration", "protocol_type", "service", "flag",
    "src_bytes", "dst_bytes", "land", "wrong_fragment",
    "urgent", "hot", "num_failed_logins", "logged_in",
    "num_compromised", "root_shell", "su_attempted", "num_root",
    "num_file_creations", "num_shells", "num_access_files", "num_outbound_cmds",
    "is_host_login", "is_guest_login", "count", "srv_count",
    "serror_rate", "srv_serror_rate", "rerror_rate", "srv_rerror_rate",
    "same_srv_rate", "diff_srv_rate", "srv_diff_host_rate", "dst_host_count",
    "dst_host_srv_count", "dst_host_same_srv_rate", "dst_host_diff_srv_rate", "dst_host_same_src_port_rate",
    "dst_host_srv_diff_host_rate", "dst_host_serror_rate", "dst_host_srv_serror_rate", "dst_host_rerror_rate",
    "dst_host_srv_rerror_rate"]

  /** The JSON name of a feature. */
  function Name(f: Field): string {
    FieldNames[f]
  }

  /**
   * Reads a feature's position back from its name, by the name's length and
   * at most one of its letters (what it gives for other strings does not
   * matter). Used only to tell the names apart without comparing whole
   * strings.
   */
  function NameIndex(s: string): int {
    // hot
    if |s| == 3 then 9
    // flag, land
    else if |s| == 4 then (if s[0] == 'f' then 3 else 6)
    // count
    else if |s| == 5 then 22
    // urgent
    else if |s| == 6 then 8
    // service
    else if |s| == 7 then 2
    // duration, num_root
    else if |s| == 8 then (if s[0] == 'd' then 0 else 15)
    // src_bytes, dst_bytes, logged_in, srv_count: the third letter
    else if |s| == 9 then (if s[2] == 'c' then 4 else if s[2] == 't' then 5 else if s[2] == 'g' then 11 else 23)
    // root_shell, num_shells
    else if |s| == 10 then (if s[0] == 'r' then 13 else 17)
    // serror_rate, rerror_rate
    else if |s| == 11 then (if s[0] == 's' then 24 else 26)
    // su_attempted
    else if |s| == 12 then 14
    // protocol_type, is_host_login, same_srv_rate, diff_srv_rate
    else if |s| == 13 then (if s[0] == 'p' then 1 else if s[0] == 'i' then 20 else if s[0] == 's' then 28 else 29)
    // wrong_fragment, is_guest_login, dst_host_count
    else if |s| == 14 then (if s[0] == 'w' then 7 else if s[0] == 'i' then 21 else 31)
    // num_compromised, srv_serror_rate, srv_rerror_rate: the fifth letter
    else if |s| == 15 then (if s[4] == 'c' then 12 else if s[4] == 's' then 25 else 27)
    // num_access_files
    else if |s| == 16 then 18
    // num_failed_logins, num_outbound_cmds: the fifth letter
    else if |s| == 17 then (if s[4] == 'f' then 10 else 19)
    // num_file_creations, srv_diff_host_rate, dst_host_srv_count
    else if |s| == 18 then (if s[0] == 'n' then 16 else if s[0] == 's' then 30 else 32)
    // dst_host_serror_rate, dst_host_rerror_rate: the letter after "dst_host_"
    else if |s| == 20 then (if s[9] == 's' then 37 else 39)
    // dst_host_same_srv_rate, dst_host_diff_srv_rate: the letter after "dst_host_"
    else if |s| == 22 then (if s[9] == 's' then 33 else 34)
    // dst_host_srv_serror_rate, dst_host_srv_rerror_rate: the letter after "dst_host_srv_"
    else if |s| == 24 then (if s[13] == 's' then 38 else 40)
    // dst_host_same_src_port_rate, dst_host_srv_diff_host_rate: the second letter after "dst_host_"
    else if |s| == 27 then (if s[10] == 'a' then 35 else 36)
    // no feature name has any other length
    else -1
  }

  /** `NameIndex` recovers every feature from its name. */
  lemma NameIndexInvertsName()
    ensures forall f: Field :: NameIndex(Name(f)) == f
  {
  }

  /** No two features share a JSON name. */
  lemma NamesDistinct()
    ensures forall f: Field, g: Field :: Name(f) == Name(g) ==> f == g
  {
    NameIndexInvertsName();
  }

  /** A JSON name that is none of the features'. */
  type OtherName = s: string | s !in FieldNames witness ""

  /**
   * A key of a JSON object or of a data frame row: the name of one of the 41
   * features, or any other name, which then is none of theirs.
   */
  datatype Key = Known(field: Field) | Other(name: OtherName)

  /** The JSON name a key stands for. */
  function KeyName(k: Key): string {
    match k
    case Known(f) => Name(f)
    case Other(s) => s
  }

  /**
   * Keys and JSON names correspond one to one: a record cannot hold a
   * feature twice, once by its position and once by its name.
   */
  lemma KeyNamesDistinct()
    ensures forall k1: Key, k2: Key :: KeyName(k1) == KeyName(k2) ==> k1 == k2
  {
    NamesDistinct();
  }

  /** The features at positions lo up to, but not including, hi. */
  function FieldRange(lo: nat, hi: nat): (s: set<Field>)
    requires lo <= hi <= FieldCount
    ensures forall f: Field :: f in s <==> lo <= f < hi
    ensures |s| == hi - lo
    decreases hi - lo
  {
    if lo == hi then {} else FieldRange(lo, hi - 1) + {hi - 1}
  }

  lemma DisjointUnionSize<T>(a: set<T>, b: set<T>)
    requires a !! b
    ensures |a + b| == |a| + |b|
  {
  }

  /** All 41 features. */
  const AllFields: set<Field> := set f: Field | 0 <= f < FieldCount

  /** There are 41 features. */
  lemma AllFieldsCount()
    ensures |AllFields| == FieldCount
  {
    assert AllFields == FieldRange(0, FieldCount);
  }

  /** The keys naming the features of a set of features. */
  function KnownKeys(s: set<Field>): (ks: set<Key>)
    ensures forall k :: k in ks <==> k.Known? && k.field in s
  {
    set f | f in s :: Known(f)
  }

  /** Naming a set of features as keys keeps its size. */
  lemma {:induction false} KnownKeysCount(s: set<Field>)
    ensures |KnownKeys(s)| == |s|
    decreases |s|
  {
    if s != {} {
      var f :| f in s;
      KnownKeysCount(s - {f});
      assert KnownKeys(s) == KnownKeys(s - {f}) + {Known(f)};
    }
  }
}

/**
 * The dynamically typed values that travel between the dashboard and the API:
 * JavaScript values as the client sees them and JSON values as the server
 * sees them. Objects (form state, feature records, JSON bodies, data frame
 * rows) are flat maps from keys to these values.
 */
module Values {
  import opened Fields

  datatype Value =
    | Undefined
    | Null
    | Bool(b: bool)
    | Num(x: real)
    | NaN
    | Str(s: string)

  /** The results of JavaScript's `Number(...)`: a finite number or NaN. */
  type JsNumber = v: Value | v.Num? || v.NaN? witness NaN

  type Object = map<Key, Value>

  /** Property access `o.k`: a missing property reads as `undefined`. */
  function Get(o: Object, k: Key): (v: Value)
    ensures k in o ==> v == o[k]
    ensures k !in o ==> v == Undefined
  {
    if k in o then o[k] else Undefined
  }

  /** JavaScript truthiness, as used by `c ? 1 : 0`. */
  predicate Truthy(v: Value) {
    match v
    case Undefined => false
    case Null => false
    case Bool(b) => b
    case Num(x) => x != 0.0
    case NaN => false
    case Str(s) => s != ""
  }

  /**
   * JavaScript's `Number(v)`. How a string is read as a number is left to the
   * caller-supplied `parse` (it may give NaN, as `Number("abc")` does).
   */
  function ToNumber(v: Value, parse: string -> JsNumber): (r: JsNumber)
    ensures v.Num? ==> r == v
    ensures v.Str? ==> r == parse(v.s)
    ensures v.Undefined? || v.NaN? ==> r == NaN
  {
    match v
    case Undefined => NaN
    case Null => Num(0.0)
    case Bool(b) => Num(if b then 1.0 else 0.0)
    case Num(_) => v
    case NaN => NaN
    case Str(s) => parse(s)
  }

  /**
   * What the server reads after the client sends `JSON.stringify(o)`:
   * properties that are `undefined` are left out and NaN becomes `null`.
   */
  function OverTheWire(o: Object): (w: Object)
    ensures forall k :: k in w <==> k in o && o[k] != Undefined
    ensures forall k :: k in w ==> w[k] == (if o[k] == NaN then Null else o[k])
  {
    map k | k in o && o[k] != Undefined :: if o[k] == NaN then Null else o[k]
  }
}
