/** JavaScript values as the script's configuration handling sees them, with the
    truthiness rule, the `a || b || c` chain, template-string rendering and the
    decimal rendering of a timestamp. */
module JsValues {

  datatype Option<+T> = None | Some(value: T)

  /** A setting's value: `undefined`, a string, or an array of strings. */
  datatype Val = Undefined | Str(s: string) | Strs(items: seq<string>)

  /** JavaScript truthiness on Val: `undefined` and the empty string are falsy,
      every array (even an empty one) is truthy. */
  predicate Truthy(v: Val) {
    match v
    case Undefined => false
    case Str(s) => s != ""
    case Strs(_) => true
  }

  /** An environment variable or a prompt answer: absent, or a string. */
  function FromOption(o: Option<string>): (v: Val)
    ensures !v.Strs?
    ensures Truthy(v) <==> o.Some? && o.value != ""
    ensures o.Some? ==> v == Str(o.value)
  {
    match o
    case None => Undefined
    case Some(s) => Str(s)
  }

  /** `vs[0] || vs[1] || ...`: the first truthy operand, or the last operand
      when none is truthy. */
  function OrChain(vs: seq<Val>): (r: Val)
    requires |vs| > 0
    ensures r in vs
    ensures Truthy(r) <==> exists i :: 0 <= i < |vs| && Truthy(vs[i])
    ensures Truthy(r) ==> exists i :: 0 <= i < |vs| && r == vs[i] && FirstTruthyAt(vs, i)
    ensures !Truthy(r) ==> r == vs[|vs| - 1]
    decreases |vs|
  {
    if |vs| == 1 || Truthy(vs[0]) then vs[0]
    else
      var r := OrChain(vs[1..]);
      assert forall i :: 0 <= i < |vs| - 1 ==> vs[1..][i] == vs[i + 1];
      assert Truthy(r) ==> exists i :: 0 <= i < |vs| && r == vs[i] && FirstTruthyAt(vs, i) by {
        if Truthy(r) {
          var j :| 0 <= j < |vs| - 1 && r == vs[1..][j] && FirstTruthyAt(vs[1..], j);
          assert FirstTruthyAt(vs, j + 1);
        }
      }
      r
  }

  /** vs[i] is truthy and every operand before it is falsy. */
  predicate FirstTruthyAt(vs: seq<Val>, i: int) {
    0 <= i < |vs| && Truthy(vs[i]) && forall j :: 0 <= j < i ==> !Truthy(vs[j])
  }

  /** Precedence of a three-operand chain, the shape every resolved setting has. */
  lemma OrChain3(a: Val, b: Val, c: Val)
    ensures Truthy(a) ==> OrChain([a, b, c]) == a
    ensures !Truthy(a) && Truthy(b) ==> OrChain([a, b, c]) == b
    ensures !Truthy(a) && !Truthy(b) ==> OrChain([a, b, c]) == c
  {
    var vs := [a, b, c];
    if Truthy(OrChain(vs)) {
      var i :| 0 <= i < 3 && OrChain(vs) == vs[i] && FirstTruthyAt(vs, i);
    }
  }

  /** `${v}`: the string a template literal makes of the value. */
  function Text(v: Val): (t: string)
    ensures v.Str? ==> t == v.s
  {
    match v
    case Undefined => "undefined"
    case Str(s) => s
    case Strs(xs) => CommaJoin(xs)
  }

  /** `String(array)`: the elements separated by commas. */
  function CommaJoin(xs: seq<string>): string
    decreases |xs|
  {
    if |xs| == 0 then ""
    else if |xs| == 1 then xs[0]
    else xs[0] + "," + CommaJoin(xs[1..])
  }

  function Digit(d: nat): (c: char)
    requires d < 10
    ensures '0' <= c <= '9'
    ensures c as int - '0' as int == d
  {
    (48 + d) as char
  }

  /** `${n}` for a non-negative integer, such as `+new Date()`. */
  function Decimal(n: nat): (r: string)
    ensures |r| >= 1
    ensures forall i :: 0 <= i < |r| ==> '0' <= r[i] <= '9'
    ensures n < 10 <==> |r| == 1
    ensures r[0] == '0' ==> n == 0
    decreases n
  {
    if n < 10 then [Digit(n)] else Decimal(n / 10) + [Digit(n % 10)]
  }

  /** Reads back a non-empty string of decimal digits. */
  function ParseDecimal(s: string): (r: Option<nat>)
    ensures r.Some? ==> |s| > 0
    decreases |s|
  {
    if |s| == 0 || !('0' <= s[|s| - 1] <= '9') then None
    else
      var d := s[|s| - 1] as int - '0' as int;
      if |s| == 1 then Some(d)
      else match ParseDecimal(s[..|s| - 1])
        case None => None
        case Some(m) => Some(10 * m + d)
  }

  /** Reading a rendered number gives the number back. */
  lemma {:induction false} DecimalRoundTrip(n: nat)
    ensures ParseDecimal(Decimal(n)) == Some(n)
    decreases n
  {
    var r := Decimal(n);
    if n >= 10 {
      var prefix := Decimal(n / 10);
      DecimalRoundTrip(n / 10);
      assert r == prefix + [Digit(n % 10)];
      assert r[..|r| - 1] == prefix;
      assert ParseDecimal(r) == Some(10 * (n / 10) + n % 10);
    }
  }

  /** Distinct numbers render to distinct strings. */
  lemma DecimalInjective(a: nat, b: nat)
    requires Decimal(a) == Decimal(b)
    ensures a == b
  {
    DecimalRoundTrip(a);
    DecimalRoundTrip(b);
  }
}
