/**
 * The session value container of session/session.go: a token, a map from
 * string keys to dynamically typed values, and typed getters that return a
 * value of the native type as it is, coerce a string where they can, and
 * otherwise report a type mismatch together with the type's zero value.
 */
module SessionContainer {
  import opened Wrappers
  import opened GoTypes
  import opened Uuid
  import opened GoText

  /** A `float64`, kept as its IEEE 754 binary64 bit pattern; the model does no floating-point arithmetic. */
  datatype Float64 = Float64(bits: bv64)

  const ZeroFloat: Float64 := Float64(0)

  /**
   * The dynamic type of a stored `interface{}`: the five types the getters
   * know, and every other Go value (a nil interface, an `int64`, a slice, ...).
   */
  datatype Value =
    | VStr(str: string)
    | VBool(b: bool)
    | VInt(i: Int64)
    | VFloat(f: Float64)
    | VTime(t: Time)
    | VOther

  /** "<value> is not a valid <wanted>"; `found` is `None` when the key is absent (Go prints `<nil>`). */
  datatype TypeMismatch = TypeMismatch(found: Option<Value>, wanted: string)

  /** A getter's `(value, error)` pair. */
  datatype Got<T> = Got(value: T, err: Option<TypeMismatch>)

  /** The exported state of a session, which is what the encodings carry. */
  datatype SessionData = SessionData(token: Token, values: map<string, Value>)

  /** The strings `GetBool` accepts. */
  predicate IsBoolText(s: string)
  {
    EqualFoldAscii(s, "true") || EqualFoldAscii(s, "false")
  }

  class Session {
    var token: Token
    var values: map<string, Value>
    /** Kept only as a stored flag: it selects whether the getters take the lock. */
    var dirtyRead: bool

    function Data(): SessionData
      reads this
    {
      SessionData(token, values)
    }

    /** `New()`, with the random token supplied by the caller. */
    constructor New(freshToken: Token)
      ensures token == freshToken && values == map[] && !dirtyRead
    {
      token := freshToken;
      values := map[];
      dirtyRead := false;
    }

    /** `NewWithDirtyRead(dirtyRead)`, with the random token supplied by the caller. */
    constructor NewWithDirtyRead(dirtyRead: bool, freshToken: Token)
      ensures token == freshToken && values == map[] && this.dirtyRead == dirtyRead
    {
      token := freshToken;
      values := map[];
      this.dirtyRead := dirtyRead;
    }

    /**
     * `NewWithValues(token, values)`; `None` stands for a nil map, for which
     * the result is `New()` with the caller's fresh token.
     */
    constructor NewWithValues(token: Token, values: Option<map<string, Value>>, freshToken: Token)
      ensures values.Some? ==> this.token == token && this.values == values.value
      ensures values.None? ==> this.token == freshToken && this.values == map[]
      ensures !dirtyRead
    {
      if values.Some? {
        this.token := token;
        this.values := values.value;
      } else {
        this.token := freshToken;
        this.values := map[];
      }
      dirtyRead := false;
    }

    /** Inserts or overwrites one key; nothing else changes. */
    method Put(key: string, value: Value)
      modifies this`values
      ensures values == old(values)[key := value]
      ensures token == old(token) && dirtyRead == old(dirtyRead)
    {
      values := values[key := value];
    }

    /** `s.Values[key]` as an optional value: `None` for a missing key. */
    function Lookup(key: string): Option<Value>
      reads this
    {
      if key in values then Some(values[key]) else None
    }

    /** Succeeds exactly on a stored string. */
    function GetString(key: string): (r: Got<string>)
      reads this
      ensures r.err.None? <==> key in values && values[key].VStr?
      ensures r.err.None? ==> r.value == values[key].str
      ensures r.err.Some? ==> r == Got("", Some(TypeMismatch(Lookup(key), "String")))
    {
      match Lookup(key)
      case Some(VStr(s)) => Got(s, None)
      case v => Got("", Some(TypeMismatch(v, "String")))
    }

    /** A stored bool, or a string that folds to "true" or "false". */
    function GetBool(key: string): (r: Got<bool>)
      reads this
      ensures r.err.None? <==>
        key in values && (values[key].VBool? || (values[key].VStr? && IsBoolText(values[key].str)))
      ensures key in values && values[key].VBool? ==> r.value == values[key].b
      ensures key in values && values[key].VStr? ==> r.value == EqualFoldAscii(values[key].str, "true")
      ensures r.err.Some? ==> r == Got(false, Some(TypeMismatch(Lookup(key), "Bool")))
    {
      match Lookup(key)
      case Some(VBool(b)) => Got(b, None)
      case Some(VStr(s)) =>
        if EqualFoldAscii(s, "true") then Got(true, None)
        else if EqualFoldAscii(s, "false") then Got(false, None)
        else Got(false, Some(TypeMismatch(Some(VStr(s)), "Bool")))
      case v => Got(false, Some(TypeMismatch(v, "Bool")))
    }

    /** A stored `int`, or a string `strconv.Atoi` accepts. */
    function GetInt(key: string): (r: Got<Int64>)
      reads this
      ensures r.err.None? <==>
        key in values && (values[key].VInt? || (values[key].VStr? && Atoi(values[key].str).Some?))
      ensures r.err.None? && values[key].VInt? ==> r.value == values[key].i
      ensures r.err.None? && values[key].VStr? ==> r.value == Atoi(values[key].str).value
      ensures r.err.Some? ==> r == Got(0, Some(TypeMismatch(Lookup(key), "Integer")))
    {
      match Lookup(key)
      case Some(VInt(i)) => Got(i, None)
      case Some(VStr(s)) =>
        (match Atoi(s)
         case Some(i) => Got(i, None)
         case None => Got(0, Some(TypeMismatch(Some(VStr(s)), "Integer"))))
      case v => Got(0, Some(TypeMismatch(v, "Integer")))
    }

    /** A stored `float64`, or a string `parseFloat` (`strconv.ParseFloat(s, 64)`) accepts. */
    function GetFloat(key: string, parseFloat: string -> Option<Float64>): (r: Got<Float64>)
      reads this
      ensures r.err.None? <==>
        key in values && (values[key].VFloat? || (values[key].VStr? && parseFloat(values[key].str).Some?))
      ensures r.err.None? && values[key].VFloat? ==> r.value == values[key].f
      ensures r.err.None? && values[key].VStr? ==> r.value == parseFloat(values[key].str).value
      ensures r.err.Some? ==> r == Got(ZeroFloat, Some(TypeMismatch(Lookup(key), "Float")))
    {
      match Lookup(key)
      case Some(VFloat(f)) => Got(f, None)
      case Some(VStr(s)) =>
        (match parseFloat(s)
         case Some(f) => Got(f, None)
         case None => Got(ZeroFloat, Some(TypeMismatch(Some(VStr(s)), "Float"))))
      case v => Got(ZeroFloat, Some(TypeMismatch(v, "Float")))
    }

    /** A stored `time.Time`, or a string `parseTime` (`time.Parse(time.RFC3339, s)`) accepts. */
    function GetTime(key: string, parseTime: string -> Option<Time>): (r: Got<Time>)
      reads this
      ensures r.err.None? <==>
        key in values && (values[key].VTime? || (values[key].VStr? && parseTime(values[key].str).Some?))
      ensures r.err.None? && values[key].VTime? ==> r.value == values[key].t
      ensures r.err.None? && values[key].VStr? ==> r.value == parseTime(values[key].str).value
      ensures r.err.Some? ==> r == Got(ZeroTime, Some(TypeMismatch(Lookup(key), "Time")))
    {
      match Lookup(key)
      case Some(VTime(t)) => Got(t, None)
      case Some(VStr(s)) =>
        (match parseTime(s)
         case Some(t) => Got(t, None)
         case None => Got(ZeroTime, Some(TypeMismatch(Some(VStr(s)), "Time"))))
      case v => Got(ZeroTime, Some(TypeMismatch(v, "Time")))
    }
  }

  /**
   * `Put` followed by the matching getter returns the value put, with no
   * error, for each of the five kinds; the last `Put` is what stays.
   */
  method PutThenGet(
    sn: Session, key: string, s: string, b: bool, i: Int64, f: Float64, t: Time,
    parseFloat: string -> Option<Float64>, parseTime: string -> Option<Time>)
    returns (gs: Got<string>, gb: Got<bool>, gi: Got<Int64>, gf: Got<Float64>, gt: Got<Time>)
    modifies sn`values
    ensures gs == Got(s, None) && gb == Got(b, None) && gi == Got(i, None)
    ensures gf == Got(f, None) && gt == Got(t, None)
    ensures sn.values == old(sn.values)[key := VTime(t)]
  {
    sn.Put(key, VStr(s));
    gs := sn.GetString(key);
    sn.Put(key, VBool(b));
    gb := sn.GetBool(key);
    sn.Put(key, VInt(i));
    gi := sn.GetInt(key);
    sn.Put(key, VFloat(f));
    gf := sn.GetFloat(key, parseFloat);
    sn.Put(key, VTime(t));
    gt := sn.GetTime(key, parseTime);
  }

  /** A stored string printed by `strconv.Itoa` reads back through `GetInt` as that integer. */
  lemma GetIntOfItoa(sn: Session, key: string, n: Int64)
    requires key in sn.values && sn.values[key] == VStr(Itoa(n))
    ensures sn.GetInt(key) == Got(n, None)
  {
    AtoiItoa(n);
  }

  /** `GetBool` ignores case: an upper-cased string coerces exactly as the original would. */
  lemma GetBoolIgnoresCase(sn: Session, key: string, s: string)
    requires key in sn.values && sn.values[key] == VStr(ToUpperAscii(s))
    ensures sn.GetBool(key).err.None? <==> IsBoolText(s)
    ensures sn.GetBool(key).value == EqualFoldAscii(s, "true")
  {
    CaseBlind(s, "true");
    CaseBlind(s, "false");
  }
}
