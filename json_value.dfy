/** The payload values that the server receives from the radio library and
    turns into JSON: nested dicts and lists whose leaves are Python scalars,
    byte strings, or arbitrary objects. `Sanitize` is the normaliser that
    runs over them before they are sent to a client. */
module JsonValue {

  newtype byte = x: int | 0 <= x < 256

  /** The scalars that JSON encodes natively: int, float, str, bool, None. */
  datatype Scalar =
    | Int(i: int)
    | Float(x: real)
    | Str(s: string)
    | Bool(b: bool)
    | Null

  /** A Python value as it appears in a payload. Dict entries keep their
      insertion order; `Other` is any other object, carried as the text
      that `str()` gives for it. */
  datatype Value =
    | Dict(entries: seq<(string, Value)>)
    | List(items: seq<Value>)
    | Bytes(data: seq<byte>)
    | Prim(scalar: Scalar)
    | Other(repr: string)

  /** Python truthiness: empty containers, zero, "", False and None are false;
      other objects are true. */
  predicate Truthy(v: Value)
    ensures !Truthy(v) <==> v in {Dict([]), List([]), Bytes([]), Prim(Int(0)), Prim(Float(0.0)),
                                  Prim(Str("")), Prim(Bool(false)), Prim(Null)}
  {
    match v
    case Dict(es) => |es| > 0
    case List(xs) => |xs| > 0
    case Bytes(b) => |b| > 0
    case Prim(p) =>
      (match p
       case Int(i) => i != 0
       case Float(x) => x != 0.0
       case Str(s) => s != ""
       case Bool(b) => b
       case Null => false)
    case Other(_) => true
  }

  function Keys(es: seq<(string, Value)>): (ks: seq<string>)
    ensures |ks| == |es|
    ensures forall i :: 0 <= i < |es| ==> ks[i] == es[i].0
  {
    seq(|es|, i requires 0 <= i < |es| => es[i].0)
  }

  /** `d.get(key, default)`: the value of the first entry with that key, or
      the default when there is none. */
  function Get(es: seq<(string, Value)>, key: string, default: Value): (r: Value)
    ensures key !in Keys(es) ==> r == default
    ensures key in Keys(es) ==> (key, r) in es
  {
    if es == [] then default
    else if es[0].0 == key then es[0].1
    else
      assert Keys(es) == [es[0].0] + Keys(es[1..]);
      Get(es[1..], key, default)
  }

  /** The entry `Get` finds is the first one with the key. */
  lemma {:induction false} GetFirst(es: seq<(string, Value)>, key: string, i: nat, default: Value)
    requires i < |es| && es[i].0 == key && key !in Keys(es[..i])
    ensures Get(es, key, default) == es[i].1
  {
    if i > 0 {
      assert Keys(es[..i])[0] == es[0].0;
      assert Keys(es[1..][..i - 1]) == Keys(es[..i])[1..];
      GetFirst(es[1..], key, i - 1, default);
    }
  }

  // ---------------------------------------------------------------------
  // bytes.hex()

  /** A lower-case hexadecimal digit, as `bytes.hex()` writes it. */
  predicate IsHexDigit(c: char) {
    '0' <= c <= '9' || 'a' <= c <= 'f'
  }

  /** The digit for a nibble. */
  function HexDigit(n: nat): (c: char)
    requires n < 16
    ensures IsHexDigit(c)
  {
    if n < 10 then ('0' as int + n) as char else ('a' as int + n - 10) as char
  }

  /** The lower-case hexadecimal text of a byte string, two digits per byte,
      high nibble first. */
  function Hex(b: seq<byte>): (r: string)
    ensures |r| == 2 * |b|
    ensures forall i :: 0 <= i < |r| ==> IsHexDigit(r[i])
  {
    if b == [] then ""
    else [HexDigit(b[0] as int / 16), HexDigit(b[0] as int % 16)] + Hex(b[1..])
  }

  /** The nibble a digit stands for. */
  function DigitValue(c: char): (n: nat)
    requires IsHexDigit(c)
    ensures n < 16 && HexDigit(n) == c
  {
    if '0' <= c <= '9' then (c as int) - ('0' as int) else 10 + (c as int) - ('a' as int)
  }

  /** The inverse of `Hex`: reads pairs of digits back into bytes. */
  function Unhex(s: string): (b: seq<byte>)
    requires |s| % 2 == 0
    requires forall i :: 0 <= i < |s| ==> IsHexDigit(s[i])
    ensures |b| * 2 == |s|
  {
    if s == [] then []
    else [(DigitValue(s[0]) * 16 + DigitValue(s[1])) as byte] + Unhex(s[2..])
  }

  lemma {:induction false} UnhexHex(b: seq<byte>)
    ensures Unhex(Hex(b)) == b
  {
    if b != [] {
      var h := Hex(b);
      var hi, lo := b[0] as int / 16, b[0] as int % 16;
      assert h[0] == HexDigit(hi) && h[1] == HexDigit(lo);
      assert DigitValue(h[0]) == hi && DigitValue(h[1]) == lo;
      assert h[2..] == Hex(b[1..]);
      UnhexHex(b[1..]);
    }
  }

  /** Distinct byte strings have distinct hex texts. */
  lemma HexInjective(a: seq<byte>, b: seq<byte>)
    requires Hex(a) == Hex(b)
    ensures a == b
  {
    UnhexHex(a);
    UnhexHex(b);
  }

  // ---------------------------------------------------------------------
  // sanitize_for_json

  /** Converts byte strings to hex text and any other non-JSON object to its
      string form; dicts and lists are rebuilt with each element sanitised. */
  function Sanitize(v: Value): (r: Value)
    ensures r.Dict? <==> v.Dict?
    ensures r.List? <==> v.List?
    ensures r.Dict? ==> Keys(r.entries) == Keys(v.entries)
    ensures r.List? ==> |r.items| == |v.items|
    ensures !r.Bytes? && !r.Other?
    ensures v.Other? ==> r == Prim(Str(v.repr))
  {
    match v
    case Dict(es) => Dict(seq(|es|, i requires 0 <= i < |es| => (es[i].0, Sanitize(es[i].1))))
    case List(xs) => List(seq(|xs|, i requires 0 <= i < |xs| => Sanitize(xs[i])))
    case Bytes(b) => Prim(Str(Hex(b)))
    case Prim(_) => v
    case Other(s) => Prim(Str(s))
  }

  /** A value JSON can encode as it is: no byte strings and no other objects
      anywhere in it. */
  predicate Plain(v: Value) {
    match v
    case Dict(es) => forall i :: 0 <= i < |es| ==> Plain(es[i].1)
    case List(xs) => forall i :: 0 <= i < |xs| ==> Plain(xs[i])
    case Bytes(_) => false
    case Prim(_) => true
    case Other(_) => false
  }

  /** `b` is `a` sanitised element by element: a dict becomes a dict with
      the same keys in the same order and each value sanitised, a list a
      list of the same length with each element sanitised, a byte string
      its hex text, a foreign object its carried `str` text, and a scalar
      stays as it is. */
  predicate Sanitized(a: Value, b: Value) {
    match a
    case Dict(es) =>
      b.Dict? && |b.entries| == |es| &&
      forall i :: 0 <= i < |es| ==> b.entries[i].0 == es[i].0 && Sanitized(es[i].1, b.entries[i].1)
    case List(xs) =>
      b.List? && |b.items| == |xs| &&
      forall i :: 0 <= i < |xs| ==> Sanitized(xs[i], b.items[i])
    case Bytes(d) => b == Prim(Str(Hex(d)))
    case Other(s) => b == Prim(Str(s))
    case Prim(_) => b == a
  }

  lemma {:induction false} SanitizeKeepsShape(v: Value)
    ensures Sanitized(v, Sanitize(v))
  {
    match v
    case Dict(es) =>
      forall i | 0 <= i < |es| ensures Sanitized(es[i].1, Sanitize(es[i].1)) {
        SanitizeKeepsShape(es[i].1);
      }
    case List(xs) =>
      forall i | 0 <= i < |xs| ensures Sanitized(xs[i], Sanitize(xs[i])) {
        SanitizeKeepsShape(xs[i]);
      }
    case _ =>
  }

  /** A byte string becomes text of twice its length, from which the bytes
      can be read back. */
  lemma SanitizeBytes(b: seq<byte>)
    ensures Sanitize(Bytes(b)).Prim? && Sanitize(Bytes(b)).scalar.Str?
    ensures |Sanitize(Bytes(b)).scalar.s| == 2 * |b|
    ensures Unhex(Sanitize(Bytes(b)).scalar.s) == b
  {
    UnhexHex(b);
  }

  /** No byte string and no foreign object survives sanitising. */
  lemma {:induction false} SanitizeIsPlain(v: Value)
    ensures Plain(Sanitize(v))
  {
    match v
    case Dict(es) =>
      forall i | 0 <= i < |es| ensures Plain(Sanitize(es[i].1)) {
        SanitizeIsPlain(es[i].1);
      }
    case List(xs) =>
      forall i | 0 <= i < |xs| ensures Plain(Sanitize(xs[i])) {
        SanitizeIsPlain(xs[i]);
      }
    case _ =>
  }

  /** The values `Sanitize` leaves unchanged are exactly the plain ones. */
  lemma {:induction false} SanitizeFixesExactlyPlain(v: Value)
    ensures Sanitize(v) == v <==> Plain(v)
  {
    match v
    case Dict(es) =>
      var out := Sanitize(v).entries;
      forall i | 0 <= i < |es| ensures Sanitize(es[i].1) == es[i].1 <==> Plain(es[i].1) {
        SanitizeFixesExactlyPlain(es[i].1);
      }
      if Plain(v) {
        assert out == es;
      }
      if Sanitize(v) == v {
        assert forall i | 0 <= i < |es| :: out[i] == es[i];
      }
    case List(xs) =>
      var out := Sanitize(v).items;
      forall i | 0 <= i < |xs| ensures Sanitize(xs[i]) == xs[i] <==> Plain(xs[i]) {
        SanitizeFixesExactlyPlain(xs[i]);
      }
      if Plain(v) {
        assert out == xs;
      }
      if Sanitize(v) == v {
        assert forall i | 0 <= i < |xs| :: out[i] == xs[i];
      }
    case _ =>
  }

  /** Sanitising twice gives the same value as sanitising once. */
  lemma SanitizeIdempotent(v: Value)
    ensures Sanitize(Sanitize(v)) == Sanitize(v)
  {
    SanitizeIsPlain(v);
    SanitizeFixesExactlyPlain(Sanitize(v));
  }
}
