/*
 * The few JavaScript value rules both nodes rely on: optional message
 * properties, truthiness of message fields, and String.prototype.trim.
 */
module JsValues {

  /** A message property that may be missing (`undefined`). */
  datatype Option<+T> = None | Some(value: T)

  type byte = bv8

  /**
   * What `msg.payload` can hold in this model: nothing, a string, or a
   * Buffer of bytes.
   */
  datatype Payload = Missing | Text(text: string) | Bytes(data: seq<byte>)

  /** JavaScript truthiness of an optional string: `undefined` and `""` are falsy. */
  predicate Truthy(v: Option<string>)
  {
    v.Some? && v.value != ""
  }

  /**
   * JavaScript truthiness of a payload. A Buffer is an object, so it is
   * truthy even when it holds no bytes.
   */
  predicate PayloadTruthy(p: Payload)
  {
    match p
    case Missing => false
    case Text(t) => t != ""
    case Bytes(_) => true
  }

  /** ECMAScript LineTerminator: LF, CR, LINE SEPARATOR, PARAGRAPH SEPARATOR. */
  predicate IsLineTerminator(c: char)
  {
    c == '\n' || c == '\r' || c == '\U{2028}' || c == '\U{2029}'
  }

  /**
   * The characters String.prototype.trim removes: ECMAScript WhiteSpace
   * (TAB, VT, FF, ZWNBSP and every Unicode "Space_Separator") together
   * with LineTerminator.
   */
  predicate IsTrimmable(c: char)
  {
    c == '\t' || c == '\U{B}' || c == '\U{C}' || c == ' ' || c == '\U{A0}'
    || c == '\U{FEFF}' || c == '\U{1680}' || ('\U{2000}' <= c <= '\U{200A}')
    || c == '\U{202F}' || c == '\U{205F}' || c == '\U{3000}'
    || IsLineTerminator(c)
  }

  /** No character of `s` is a line terminator. */
  predicate NoLineTerminator(s: string)
  {
    forall c :: c in s ==> !IsLineTerminator(c)
  }

  /** `s` with its leading trimmable characters removed. */
  function TrimStart(s: string): (r: string)
    ensures |r| <= |s| && r == s[|s| - |r|..]
    ensures forall k :: 0 <= k < |s| - |r| ==> IsTrimmable(s[k])
    ensures r == [] || !IsTrimmable(r[0])
  {
    if s != [] && IsTrimmable(s[0]) then TrimStart(s[1..]) else s
  }

  /** `s` with its trailing trimmable characters removed. */
  function TrimEnd(s: string): (r: string)
    ensures |r| <= |s| && r == s[..|r|]
    ensures forall k :: |r| <= k < |s| ==> IsTrimmable(s[k])
    ensures r == [] || !IsTrimmable(r[|r| - 1])
  {
    if s != [] && IsTrimmable(s[|s| - 1]) then TrimEnd(s[..|s| - 1]) else s
  }

  /** String.prototype.trim: no shorter than needed, it neither starts nor ends with a trimmable character. */
  function Trim(s: string): (r: string)
    ensures |r| <= |s|
    ensures r == [] || (!IsTrimmable(r[0]) && !IsTrimmable(r[|r| - 1]))
  {
    TrimEnd(TrimStart(s))
  }

  /**
   * Trim removes exactly a run of trimmable characters at each end: the
   * result is the infix s[i..j], everything outside it is trimmable, and
   * the result neither starts nor ends with a trimmable character.
   */
  lemma TrimIsMaximalInfix(s: string) returns (i: nat, j: nat)
    ensures i <= j <= |s| && Trim(s) == s[i..j]
    ensures forall k :: 0 <= k < i ==> IsTrimmable(s[k])
    ensures forall k :: j <= k < |s| ==> IsTrimmable(s[k])
    ensures Trim(s) == [] || (!IsTrimmable(Trim(s)[0]) && !IsTrimmable(Trim(s)[|Trim(s)| - 1]))
  {
    var t := TrimStart(s);
    var r := TrimEnd(t);
    i := |s| - |t|;
    j := i + |r|;
    assert r == t[..|r|];
    assert t == s[i..];
    forall k | j <= k < |s| ensures IsTrimmable(s[k]) {
      assert s[k] == t[k - i];
    }
  }

  /** A string made only of trimmable characters trims to the empty string. */
  lemma TrimAllTrimmable(s: string)
    requires forall k :: 0 <= k < |s| ==> IsTrimmable(s[k])
    ensures Trim(s) == ""
  {
  }

  /** Trimming twice is the same as trimming once. */
  lemma TrimIdempotent(s: string)
    ensures Trim(Trim(s)) == Trim(s)
  {
    var r := Trim(s);
    assert TrimStart(r) == r;
    assert TrimEnd(r) == r;
  }
}
