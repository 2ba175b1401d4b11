/** The fragment of JavaScript semantics that the server's request handling relies on:
    the values a header, a query parameter or a parsed JSON document can hold,
    truthiness and the `||` operator, property access, and `String.prototype.trim`. */
module JsValues {

  datatype Option<+T> = None | Some(value: T)

  /** A JavaScript value as far as the server inspects it. Numbers are reals; a JSON
      number too large for a double parses to an infinity, which stands here for some
      non-zero real, and `Truthy` treats both alike. */
  datatype JsValue =
    | Undefined
    | Null
    | Bool(b: bool)
    | Num(n: real)
    | Str(s: string)
    | Arr(elems: seq<JsValue>)
    | Obj(props: map<string, JsValue>)

  /** How an expression that may throw ends: with a value, or with an exception. */
  datatype Completion = Returned(value: JsValue) | Threw

  /** JavaScript truthiness: `undefined`, `null`, `false`, `0` and `""` are the falsy values. */
  predicate Truthy(v: JsValue) {
    match v
    case Undefined => false
    case Null => false
    case Bool(b) => b
    case Num(n) => n != 0.0
    case Str(s) => s != ""
    case Arr(_) => true
    case Obj(_) => true
  }

  /** `a || b`: the left operand when it is truthy, otherwise the right one. */
  function Or(a: JsValue, b: JsValue): (r: JsValue)
    ensures Truthy(r) <==> Truthy(a) || Truthy(b)
    ensures Truthy(a) ==> r == a
    ensures !Truthy(a) ==> r == b
  {
    if Truthy(a) then a else b
  }

  /** `v[key]` for a property name that no prototype defines. None when the access
      throws a TypeError, which it does exactly on `null` and `undefined`; any other
      value that is not an object (a string, a number, an array, ...) has no such
      property and yields `undefined`. */
  function GetProp(v: JsValue, key: string): (r: Option<JsValue>)
    ensures r.None? <==> v.Undefined? || v.Null?
    ensures r.Some? && !v.Obj? ==> r.value.Undefined?
    ensures v.Obj? && key in v.props ==> r == Some(v.props[key])
    ensures v.Obj? && key !in v.props ==> r == Some(Undefined)
  {
    match v
    case Undefined => None
    case Null => None
    case Obj(props) => Some(if key in props then props[key] else Undefined)
    case _ => Some(Undefined)
  }

  /** The characters `String.prototype.trim` removes: the ECMAScript WhiteSpace
      (tab, vertical tab, form feed, space, no-break space, byte order mark and the
      other Unicode space separators) and LineTerminator code points. */
  predicate IsSpace(c: char) {
    c == '\t' || c == '\n' || c == '\U{0B}' || c == '\U{0C}' || c == '\r' || c == ' ' ||
    c == '\U{A0}' || c == '\U{1680}' || ('\U{2000}' <= c <= '\U{200A}') ||
    c == '\U{2028}' || c == '\U{2029}' || c == '\U{202F}' || c == '\U{205F}' ||
    c == '\U{3000}' || c == '\U{FEFF}'
  }

  /** `s` without its leading white space. */
  function TrimStart(s: string): string {
    if s != [] && IsSpace(s[0]) then TrimStart(s[1..]) else s
  }

  /** `s` without its trailing white space. */
  function TrimEnd(s: string): string {
    if s != [] && IsSpace(s[|s| - 1]) then TrimEnd(s[..|s| - 1]) else s
  }

  /** `s.trim()` */
  function Trim(s: string): string {
    TrimEnd(TrimStart(s))
  }

  /** `s.trim().length === 0` */
  predicate Blank(s: string) {
    |Trim(s)| == 0
  }

  /** TrimStart drops a prefix made of white space only, and what it keeps does not start
      with white space. */
  lemma {:induction false} TrimStartDropsLeadingSpace(s: string)
    ensures var r := TrimStart(s);
            |r| <= |s| && r == s[|s| - |r|..] &&
            (r == [] || !IsSpace(r[0])) &&
            forall i :: 0 <= i < |s| - |r| ==> IsSpace(s[i])
  {
    if s != [] && IsSpace(s[0]) {
      TrimStartDropsLeadingSpace(s[1..]);
      var r := TrimStart(s);
      forall i | 0 <= i < |s| - |r| ensures IsSpace(s[i]) {
        if i > 0 { assert s[i] == s[1..][i - 1]; }
      }
    }
  }

  /** TrimEnd drops a suffix made of white space only, and what it keeps does not end
      with white space. */
  lemma {:induction false} TrimEndDropsTrailingSpace(s: string)
    ensures var r := TrimEnd(s);
            |r| <= |s| && r == s[..|r|] &&
            (r == [] || !IsSpace(r[|r| - 1])) &&
            forall i :: |r| <= i < |s| ==> IsSpace(s[i])
  {
    if s != [] && IsSpace(s[|s| - 1]) {
      var s' := s[..|s| - 1];
      TrimEndDropsTrailingSpace(s');
      var r := TrimEnd(s);
      forall i | |r| <= i < |s| ensures IsSpace(s[i]) {
        if i < |s| - 1 { assert s[i] == s'[i]; }
      }
    }
  }

  /** The result of `trim` is `s` with white space dropped at both ends, and it neither starts
      nor ends with white space. */
  lemma TrimDropsSpaceAtBothEnds(s: string)
    ensures var r := Trim(s);
            |r| <= |s| &&
            (r == [] || (!IsSpace(r[0]) && !IsSpace(r[|r| - 1]))) &&
            exists k :: 0 <= k <= |s| - |r| && r == s[k..][..|r|] &&
              (forall i :: 0 <= i < k ==> IsSpace(s[i])) &&
              (forall i :: k + |r| <= i < |s| ==> IsSpace(s[i]))
  {
    var t := TrimStart(s);
    TrimStartDropsLeadingSpace(s);
    TrimEndDropsTrailingSpace(t);
    var r := TrimEnd(t);
    var k := |s| - |t|;
    assert r == s[k..][..|r|];
    forall i | k + |r| <= i < |s| ensures IsSpace(s[i]) {
      assert s[i] == t[i - k];
    }
    if r != [] { assert r[0] == t[0]; }
  }

  /** A string trims to nothing exactly when every one of its characters is white space. */
  lemma BlankIffAllSpace(s: string)
    ensures Blank(s) <==> forall i :: 0 <= i < |s| ==> IsSpace(s[i])
  {
    TrimDropsSpaceAtBothEnds(s);
    var t := TrimStart(s);
    TrimStartDropsLeadingSpace(s);
    TrimEndDropsTrailingSpace(t);
  }

  /** The empty string is blank. */
  lemma EmptyIsBlank()
    ensures Blank("")
  {
  }

  /** `typeof v === "string" && v.trim().length > 0` */
  predicate IsNonBlankString(v: JsValue) {
    v.Str? && !Blank(v.s)
  }
}
