/**
 * The handful of Ruby values the gateway handles: option and parameter
 * values, the text-or-hash values read out of a parsed response, Ruby
 * truthiness, `||` defaulting, `[]` on those values, `to_s`, and the
 * errors the gateway lets escape.
 */
module RubyValues {
  import opened Wrappers

  /**
   * A value read out of a parsed response: the text of a leaf element
   * (None is Ruby's nil) or the hash built for an element with child
   * elements. An absent key reads as nil, so Leaf(None) also stands for
   * "not there".
   */
  datatype Tree = Leaf(text: Option<string>) | Node(children: map<string, Tree>)

  const Nil: Tree := Leaf(None)

  /** A value stored in an option or parameter hash. */
  datatype Value =
    | NilValue
    | Bool(b: bool)
    | Int(i: int)
    | Str(s: string)
    | Hash(entries: map<string, Tree>)

  /** What Ruby raises out of the gateway's operations. */
  datatype Error =
    | MissingParameter(name: string)   // `requires!` on an absent option key
    | UnsupportedAction                // the ArgumentError at the end of `commit`'s case
    | NoMethodError(selector: string)  // a method called on nil (or on a String that lacks it)
    | TransportError                   // the HTTPS GET failed
    | XmlParseError                    // the body is not well-formed XML

  /** Ruby truthiness: only nil and false are false. */
  predicate Truthy(v: Value) {
    !(v.NilValue? || v == Bool(false))
  }

  predicate TreeTruthy(t: Tree) {
    t != Nil
  }

  /** `a || b` on values: `a` unless it is nil or false. */
  function Or(a: Value, b: Value): (r: Value)
    ensures r == a || r == b
    ensures Truthy(r) <==> Truthy(a) || Truthy(b)
  {
    if Truthy(a) then a else b
  }

  /** The value a response subtree becomes when it is stored in a parameter hash. */
  function TreeValue(t: Tree): (v: Value)
    ensures Truthy(v) <==> TreeTruthy(t)
  {
    match t
    case Leaf(None) => NilValue
    case Leaf(Some(s)) => Str(s)
    case Node(m) => Hash(m)
  }

  /** `sub` matches `s` at index `i`, from its `j`-th character on. */
  predicate MatchesFrom(s: string, sub: string, i: nat, j: nat)
    requires i + |sub| <= |s| && j <= |sub|
    decreases |sub| - j
  {
    j == |sub| || (s[i + j] == sub[j] && MatchesFrom(s, sub, i, j + 1))
  }

  /** `sub` occurs in `s` at index `i` or later. */
  predicate ContainsFrom(s: string, sub: string, i: nat)
    decreases |s| - i
  {
    i + |sub| <= |s| && (MatchesFrom(s, sub, i, 0) || ContainsFrom(s, sub, i + 1))
  }

  /** Whether `sub` occurs in `s` (what `=~` with a literal pattern and String#[] test). */
  predicate Contains(s: string, sub: string) {
    ContainsFrom(s, sub, 0)
  }

  /** `sub` occurs in `s` starting at index `i`. */
  ghost predicate OccursAt(s: string, sub: string, i: int) {
    0 <= i <= |s| - |sub| && s[i..i + |sub|] == sub
  }

  lemma {:induction false} MatchesFromIff(s: string, sub: string, i: nat, j: nat)
    requires i + |sub| <= |s| && j <= |sub|
    ensures MatchesFrom(s, sub, i, j) <==> forall k :: j <= k < |sub| ==> s[i + k] == sub[k]
    decreases |sub| - j
  {
    if j < |sub| {
      MatchesFromIff(s, sub, i, j + 1);
    }
  }

  lemma {:induction false} ContainsFromIff(s: string, sub: string, i: nat)
    ensures ContainsFrom(s, sub, i) <==> exists k :: i <= k && OccursAt(s, sub, k)
    decreases |s| - i
  {
    if i + |sub| <= |s| {
      MatchesFromIff(s, sub, i, 0);
      if MatchesFrom(s, sub, i, 0) {
        assert s[i..i + |sub|] == sub;
        assert OccursAt(s, sub, i);
      }
      ContainsFromIff(s, sub, i + 1);
      if exists k :: i <= k && OccursAt(s, sub, k) {
        var k :| i <= k && OccursAt(s, sub, k);
        if k > i {
          assert i + 1 <= k;
        }
      }
    }
  }

  lemma ContainsIffOccurs(s: string, sub: string)
    ensures Contains(s, sub) <==> exists i :: OccursAt(s, sub, i)
  {
    ContainsFromIff(s, sub, 0);
  }

  /** A string that lacks the first character of `sub` does not contain `sub`. */
  lemma ContainsNeedsFirstChar(s: string, sub: string)
    requires |sub| > 0
    requires forall i :: 0 <= i < |s| ==> s[i] != sub[0]
    ensures !Contains(s, sub)
  {
    ContainsIffOccurs(s, sub);
  }

  /** Ruby `hash[key]` on a parsed hash: nil when the key is absent. */
  function Field(m: map<string, Tree>, key: string): (t: Tree)
    ensures TreeTruthy(t) ==> key in m && m[key] == t
  {
    if key in m then m[key] else Nil
  }

  /**
   * Ruby `value[key]` with a String key on a value read out of a parse:
   * a Hash looks the key up, a String answers `key` itself when it contains
   * it and nil otherwise, and nil has no `[]` at all.
   */
  function Index(t: Tree, key: string): (r: Result<Tree, Error>)
    ensures r.Failure? <==> t == Nil
    ensures t.Node? && key in t.children ==> r == Success(t.children[key])
    ensures t.Node? && key !in t.children ==> r == Success(Nil)
    ensures t.Leaf? && t.text.Some? ==>
      && (r.value != Nil <==> exists i :: OccursAt(t.text.value, key, i))
      && (r.value != Nil ==> r.value == Leaf(Some(key)))
  {
    match t
    case Node(m) => Success(Field(m, key))
    case Leaf(Some(s)) =>
      ContainsIffOccurs(s, key);
      Success(if Contains(s, key) then Leaf(Some(key)) else Nil)
    case Leaf(None) => Failure(NoMethodError("[]"))
  }

  // ---- Integer#to_s and its inverse -------------------------------------

  predicate IsDigit(c: char) {
    '0' <= c <= '9'
  }

  function DigitChar(d: int): (c: char)
    requires 0 <= d < 10
    ensures IsDigit(c) && c as int - '0' as int == d
  {
    ('0' as int + d) as char
  }

  /** The decimal digits of `n`, most significant first, without leading zeros. */
  function NatDigits(n: nat): (s: string)
    ensures |s| >= 1 && IsDigit(s[0])
    decreases n
  {
    if n < 10 then [DigitChar(n)] else NatDigits(n / 10) + [DigitChar(n % 10)]
  }

  /** Integer#to_s: an optional minus sign followed by the digits. */
  function Decimal(i: int): string {
    if i < 0 then "-" + NatDigits(-i) else NatDigits(i)
  }

  function ParseNat(s: string): Option<nat>
    decreases |s|
  {
    if |s| == 0 || !IsDigit(s[|s| - 1]) then None
    else
      var d := s[|s| - 1] as int - '0' as int;
      if |s| == 1 then Some(d)
      else match ParseNat(s[..|s| - 1])
        case None => None
        case Some(n) => Some(n * 10 + d)
  }

  /** Reads back what Decimal writes. */
  function ParseDecimal(s: string): Option<int> {
    if |s| > 0 && s[0] == '-' then
      match ParseNat(s[1..])
      case None => None
      case Some(n) => Some(-(n as int))
    else ParseNat(s)
  }

  lemma {:induction false} ParseNatDigits(n: nat)
    ensures ParseNat(NatDigits(n)) == Some(n)
    decreases n
  {
    if n >= 10 {
      ParseNatDigits(n / 10);
      var s := NatDigits(n);
      assert s[..|s| - 1] == NatDigits(n / 10);
    }
  }

  lemma DecimalRoundTrip(i: int)
    ensures ParseDecimal(Decimal(i)) == Some(i)
  {
    if i < 0 {
      ParseNatDigits(-i);
      assert Decimal(i)[1..] == NatDigits(-i);
    } else {
      ParseNatDigits(i);
    }
  }

  /** Object#to_s for the values a parameter hash holds. */
  function ToS(v: Value): (s: string)
    ensures v.Str? ==> s == v.s
    ensures v.NilValue? ==> s == ""
    ensures v.Int? ==> ParseDecimal(s) == Some(v.i)
  {
    match v
    case NilValue => ""
    case Bool(b) => if b then "true" else "false"
    case Int(i) => DecimalRoundTrip(i); Decimal(i)
    case Str(s) => s
    case Hash(_) => ""
  }
}
