/** The JavaScript value semantics the rule engines rely on: parsed JSON values,
    truthiness, optional member access, `||` defaults, string conversion and the
    string and array helpers (`trim`, `startsWith`, `includes`, `replace`,
    `split`, `join`, `filter`, `map`) they call.

    The library primitives themselves (`parseFloat`, `Number`, `JSON.parse` and
    number formatting) are not reimplemented: they are the fields of a
    `Primitives` record that every caller receives as a parameter. */
module Js {

  datatype Option<+T> = None | Some(value: T)

  /** The outcome of an expression that can throw (a TypeError, a SyntaxError). */
  datatype Result<+T> = Ok(value: T) | Throws

  /** A parsed JSON value. In an `Option<Json>`, `None` stands for `undefined`. */
  datatype Json =
    | JNull
    | JBool(b: bool)
    | JNum(n: real)
    | JStr(s: string)
    | JArr(items: seq<Json>)
    | JObj(fields: map<string, Json>)

  /** The library primitives, left abstract. `None` is NaN for the two number
      readers and a SyntaxError for `JSON.parse`. */
  datatype Primitives = Primitives(
    parseFloat: string -> Option<real>,
    toNumber: string -> Option<real>,
    jsonParse: string -> Option<Json>,
    numberToString: real -> string
  )

  /** The number `n` survives formatting: `parseFloat` and `Number` read its
      text back as `n`. In JavaScript this holds for every double; here it is
      asked only of the amount a cross-component lemma follows. */
  ghost predicate ReadsBackNumber(js: Primitives, n: real) {
    js.parseFloat(js.numberToString(n)) == Some(n) &&
    js.toNumber(js.numberToString(n)) == Some(n)
  }

  /** The requirement can be met for every amount: for each `n` there are
      primitives whose readers give `n` back for its formatted text. */
  lemma ReadsBackNumberSatisfiable(n: real)
    ensures exists js: Primitives :: ReadsBackNumber(js, n)
  {
    var js := Primitives(_ => Some(n), _ => Some(n), _ => None, _ => "n");
    assert ReadsBackNumber(js, n);
  }

  // ---------------------------------------------------------------- values

  /** JavaScript truthiness (`!!v`). JSON has no NaN, so a number is falsy iff it is 0. */
  predicate Truthy(v: Option<Json>) {
    match v
    case None => false
    case Some(JNull) => false
    case Some(JBool(b)) => b
    case Some(JNum(n)) => n != 0.0
    case Some(JStr(s)) => s != ""
    case Some(_) => true
  }

  /** `v || d`. */
  function OrElse(v: Option<Json>, d: Json): (r: Json)
    ensures Truthy(v) ==> Some(r) == v
    ensures !Truthy(v) ==> r == d
  {
    if Truthy(v) then v.value else d
  }

  /** `v?.key`: undefined unless `v` is an object that has the key. */
  function Get(v: Option<Json>, key: string): (r: Option<Json>)
    ensures r.Some? <==> v.Some? && v.value.JObj? && key in v.value.fields
  {
    if v.Some? && v.value.JObj? && key in v.value.fields then Some(v.value.fields[key]) else None
  }

  /** `v.key` on a defined value: throws on null, undefined on every non-object. */
  function Member(v: Json, key: string): (r: Result<Option<Json>>)
    ensures r.Throws? <==> v == JNull
    ensures r.Ok? ==> r.value == Get(Some(v), key)
  {
    if v == JNull then Throws else Ok(Get(Some(v), key))
  }

  /** `v?.[0]`: the first element of an array, or property "0" of an object.
      A string's first character is read as undefined: every caller reads a
      property of the result, which is undefined on a string either way. */
  function First(v: Option<Json>): Option<Json> {
    match v
    case Some(JArr(items)) => if |items| > 0 then Some(items[0]) else None
    case Some(JObj(m)) => if "0" in m then Some(m["0"]) else None
    case _ => None
  }

  /** `Array.isArray(v)`. */
  predicate IsArray(v: Option<Json>) {
    v.Some? && v.value.JArr?
  }

  /** `String(v)`, the conversion in template literals and object keys. */
  function ToStr(v: Option<Json>, js: Primitives): string {
    match v
    case None => "undefined"
    case Some(j) => JsonToStr(j, js)
  }

  function JsonToStr(v: Json, js: Primitives): string
    decreases v
  {
    match v
    case JNull => "null"
    case JBool(b) => if b then "true" else "false"
    case JNum(n) => js.numberToString(n)
    case JStr(s) => s
    case JArr(items) =>
      // Array.prototype.join: null and undefined elements become ""
      Join(seq(|items|, i requires 0 <= i < |items| =>
        if items[i] == JNull then "" else JsonToStr(items[i], js)), ",")
    case JObj(_) => "[object Object]"
  }

  /** `parseFloat(v)`: the string reader applied to `String(v)`. */
  function ParseFloat(v: Option<Json>, js: Primitives): Option<real> {
    js.parseFloat(ToStr(v, js))
  }

  /** `Number(v)`, the conversion the comparison operators apply. */
  function ToNumber(v: Option<Json>, js: Primitives): (r: Option<real>)
    ensures v == None ==> r == None
    ensures v == Some(JNull) ==> r == Some(0.0)
  {
    match v
    case None => None
    case Some(JNull) => Some(0.0)
    case Some(JBool(b)) => Some(if b then 1.0 else 0.0)
    case Some(JNum(n)) => Some(n)
    case Some(JStr(s)) => js.toNumber(s)
    case Some(j) => js.toNumber(JsonToStr(j, js))
  }

  /** `a > b` and friends: false as soon as one side is NaN. */
  predicate Gt(a: Option<real>, b: Option<real>) { a.Some? && b.Some? && a.value > b.value }
  predicate Lt(a: Option<real>, b: Option<real>) { a.Some? && b.Some? && a.value < b.value }
  predicate Le(a: Option<real>, b: Option<real>) { a.Some? && b.Some? && a.value <= b.value }
  predicate Ge(a: Option<real>, b: Option<real>) { a.Some? && b.Some? && a.value >= b.value }

  // --------------------------------------------------------------- strings

  /** The characters `String.prototype.trim` removes: white space and line terminators. */
  predicate IsSpace(c: char) {
    || c == ' ' || c == '\t' || c == '\n' || c == '\r'
    || c == '\U{000B}' || c == '\U{000C}' || c == '\U{00A0}' || c == '\U{FEFF}'
    || c == '\U{1680}' || ('\U{2000}' <= c <= '\U{200A}') || c == '\U{2028}' || c == '\U{2029}'
    || c == '\U{202F}' || c == '\U{205F}' || c == '\U{3000}'
  }

  predicate AllSpace(s: string) {
    forall i :: 0 <= i < |s| ==> IsSpace(s[i])
  }

  function TrimStart(s: string): (r: string)
    ensures |r| <= |s| && r == s[|s| - |r|..]
    ensures r == "" <==> AllSpace(s)
    ensures r != "" ==> !IsSpace(r[0])
  {
    if |s| > 0 && IsSpace(s[0]) then
      var r := TrimStart(s[1..]);
      assert s[1..][|s| - 1 - |r|..] == s[|s| - |r|..];
      assert AllSpace(s[1..]) ==> AllSpace(s) by {
        if AllSpace(s[1..]) {
          forall i | 0 <= i < |s| ensures IsSpace(s[i]) {
            if i > 0 { assert s[i] == s[1..][i - 1]; }
          }
        }
      }
      assert AllSpace(s) ==> AllSpace(s[1..]) by {
        if AllSpace(s) {
          forall i | 0 <= i < |s| - 1 ensures IsSpace(s[1..][i]) { assert s[1..][i] == s[i + 1]; }
        }
      }
      r
    else
      s
  }

  function TrimEnd(s: string): (r: string)
    ensures |r| <= |s| && r == s[..|r|]
    ensures r == "" <==> AllSpace(s)
  {
    if |s| > 0 && IsSpace(s[|s| - 1]) then
      var r := TrimEnd(s[..|s| - 1]);
      assert s[..|s| - 1][..|r|] == s[..|r|];
      assert AllSpace(s[..|s| - 1]) ==> AllSpace(s) by {
        if AllSpace(s[..|s| - 1]) {
          forall i | 0 <= i < |s| ensures IsSpace(s[i]) {
            if i < |s| - 1 { assert s[i] == s[..|s| - 1][i]; }
          }
        }
      }
      r
    else
      s
  }

  /** `s.trim()`. */
  function Trim(s: string): (r: string)
    ensures |r| <= |s|
    ensures r == "" <==> AllSpace(s)
  {
    TrimEnd(TrimStart(s))
  }

  /** `!s.trim()`: the string is empty or white space only. */
  predicate IsBlank(s: string) {
    Trim(s) == ""
  }

  /** `s.startsWith(p)`. */
  predicate StartsWith(s: string, p: string) {
    |p| <= |s| && s[..|p|] == p
  }

  /** `p` occurs in `s` at position `j`. */
  predicate OccursAt(s: string, p: string, j: int) {
    0 <= j && j + |p| <= |s| && s[j..j + |p|] == p
  }

  /** `s.indexOf(p)`, with `None` for -1. */
  function IndexOf(s: string, p: string): (r: Option<nat>)
    ensures r.Some? ==> OccursAt(s, p, r.value)
    ensures r.Some? ==> forall j :: 0 <= j < r.value ==> !OccursAt(s, p, j)
    ensures r.None? ==> forall j :: !OccursAt(s, p, j)
    decreases |s|
  {
    if StartsWith(s, p) then Some(0)
    else if |s| == 0 then None
    else
      var r := IndexOf(s[1..], p);
      assert forall j :: 1 <= j ==> (OccursAt(s, p, j) <==> OccursAt(s[1..], p, j - 1)) by {
        forall j | 1 <= j ensures OccursAt(s, p, j) <==> OccursAt(s[1..], p, j - 1) {
          if j + |p| <= |s| { assert s[1..][j - 1..j - 1 + |p|] == s[j..j + |p|]; }
        }
      }
      assert !OccursAt(s, p, 0);
      match r
      case None => None
      case Some(k) => Some(k + 1)
  }

  /** `s.includes(p)`. */
  predicate Contains(s: string, p: string) {
    IndexOf(s, p).Some?
  }

  /** `s.replace(p, q)` with a string pattern: only the first occurrence is replaced. */
  function ReplaceFirst(s: string, p: string, q: string): string {
    match IndexOf(s, p)
    case None => s
    case Some(k) => s[..k] + q + s[k + |p|..]
  }

  /** `xs.join(sep)`. */
  function Join(xs: seq<string>, sep: string): string {
    if |xs| == 0 then ""
    else if |xs| == 1 then xs[0]
    else xs[0] + sep + Join(xs[1..], sep)
  }

  /** `s.split(sep)` for a one-character separator. */
  function Split(s: string, sep: char): (r: seq<string>)
    ensures |r| >= 1
  {
    if |s| == 0 then [""]
    else
      var rest := Split(s[1..], sep);
      if s[0] == sep then [""] + rest else [[s[0]] + rest[0]] + rest[1..]
  }

  lemma {:induction false} SplitNoSeparator(a: string, sep: char)
    requires sep !in a
    ensures Split(a, sep) == [a]
  {
    if |a| > 0 {
      assert sep !in a[1..] by { assert forall c :: c in a[1..] ==> c in a; }
      SplitNoSeparator(a[1..], sep);
      assert [a[0]] + a[1..] == a;
    }
  }

  lemma {:induction false} SplitAtSeparator(a: string, sep: char, b: string)
    requires sep !in a
    ensures Split(a + [sep] + b, sep) == [a] + Split(b, sep)
  {
    if |a| == 0 {
      assert a + [sep] + b == [sep] + b;
      assert ([sep] + b)[1..] == b;
    } else {
      assert sep !in a[1..] by { assert forall c :: c in a[1..] ==> c in a; }
      SplitAtSeparator(a[1..], sep, b);
      assert (a + [sep] + b)[1..] == a[1..] + [sep] + b;
      assert [a[0]] + a[1..] == a;
    }
  }

  /** Splitting a joined list gives the list back when no element holds the separator. */
  lemma {:induction false} SplitJoin(xs: seq<string>, sep: char)
    requires |xs| >= 1
    requires forall i :: 0 <= i < |xs| ==> sep !in xs[i]
    ensures Split(Join(xs, [sep]), sep) == xs
  {
    if |xs| == 1 {
      SplitNoSeparator(xs[0], sep);
    } else {
      SplitJoin(xs[1..], sep);
      SplitAtSeparator(xs[0], sep, Join(xs[1..], [sep]));
      assert xs == [xs[0]] + xs[1..];
    }
  }

  // ---------------------------------------------------------------- arrays

  /** `xs.filter(item => item !== x)`. */
  function RemoveAll<T(==,!new)>(xs: seq<T>, x: T): (r: seq<T>)
    ensures x !in r
    ensures forall y :: y in r <==> y in xs && y != x
    ensures x !in xs ==> r == xs
  {
    if |xs| == 0 then []
    else if xs[0] == x then RemoveAll(xs[1..], x)
    else [xs[0]] + RemoveAll(xs[1..], x)
  }

  /** `xs.includes(x) ? xs.filter(item => item !== x) : [...xs, x]`: the selection toggle. */
  function Toggle<T(==,!new)>(xs: seq<T>, x: T): (r: seq<T>)
    ensures x in r <==> x !in xs
    ensures forall y :: y != x ==> (y in r <==> y in xs)
    ensures x !in xs ==> r == xs + [x]
  {
    if x in xs then RemoveAll(xs, x) else xs + [x]
  }

  /** `xs.map((y, j) => j === i ? v : y)`. */
  function ReplaceAt<T>(xs: seq<T>, i: int, v: T): (r: seq<T>)
    ensures |r| == |xs|
    ensures forall j :: 0 <= j < |xs| ==> r[j] == if j == i then v else xs[j]
  {
    seq(|xs|, j requires 0 <= j < |xs| => if j == i then v else xs[j])
  }

  /** `xs.filter((_, j) => j !== i)`. */
  function RemoveIndex<T>(xs: seq<T>, i: int): (r: seq<T>)
    ensures 0 <= i < |xs| ==> |r| == |xs| - 1
    ensures 0 <= i < |xs| ==> forall j :: 0 <= j < |r| ==> r[j] == if j < i then xs[j] else xs[j + 1]
    ensures !(0 <= i < |xs|) ==> r == xs
  {
    if 0 <= i < |xs| then xs[..i] + xs[i + 1..] else xs
  }

  /** The position `copy.splice(i, 1)` removes from, as JavaScript normalises it. */
  function SpliceStart(len: nat, i: int): (r: nat)
    ensures r <= len
  {
    if i < 0 then (if len + i < 0 then 0 else len + i) else if i > len then len else i
  }

  /** `copy.splice(i, 1)` on a copy of `xs`: the copy afterwards. */
  function SpliceOne<T>(xs: seq<T>, i: int): (r: seq<T>)
    ensures 0 <= i < |xs| ==> r == RemoveIndex(xs, i)
    ensures i >= |xs| ==> r == xs
  {
    var k := SpliceStart(|xs|, i);
    if k < |xs| then xs[..k] + xs[k + 1..] else xs
  }

  /** No value occurs twice. */
  predicate Distinct<T(==)>(xs: seq<T>) {
    forall i, j :: 0 <= i < j < |xs| ==> xs[i] != xs[j]
  }

  lemma DistinctSnoc<T>(init: seq<T>, last: T)
    ensures Distinct(init + [last]) <==> Distinct(init) && last !in init
  {
    var xs := init + [last];
    if Distinct(xs) {
      forall i, j | 0 <= i < j < |init| ensures init[i] != init[j] {
        assert xs[i] == init[i] && xs[j] == init[j];
      }
      forall k | 0 <= k < |init| ensures init[k] != last {
        assert xs[k] == init[k] && xs[|init|] == last;
      }
    }
  }

  /** `new Set(xs).size === xs.length` exactly when no value repeats. */
  lemma {:induction false} DistinctIffSetSize<T>(xs: seq<T>)
    ensures |set t | t in xs| <= |xs|
    ensures |set t | t in xs| == |xs| <==> Distinct(xs)
  {
    if |xs| > 0 {
      var init := xs[..|xs| - 1];
      var last := xs[|xs| - 1];
      DistinctIffSetSize(init);
      DistinctSnoc(init, last);
      assert xs == init + [last];
      assert (set t | t in xs) == (set t | t in init) + {last};
      if last in init {
        assert (set t | t in xs) == (set t | t in init);
      } else {
        assert |(set t | t in xs)| == |(set t | t in init)| + 1;
      }
    }
  }

  /** Toggling an absent element twice restores the list. */
  lemma {:induction false} ToggleTwiceRestores<T(!new)>(xs: seq<T>, x: T)
    requires x !in xs
    ensures Toggle(Toggle(xs, x), x) == xs
  {
    RemoveAppended(xs, x);
  }

  lemma {:induction false} RemoveAppended<T(!new)>(xs: seq<T>, x: T)
    requires x !in xs
    ensures RemoveAll(xs + [x], x) == xs
  {
    if |xs| > 0 {
      assert (xs + [x])[1..] == xs[1..] + [x];
      RemoveAppended(xs[1..], x);
      assert xs == [xs[0]] + xs[1..];
    } else {
      assert RemoveAll(xs + [x], x) == RemoveAll([x][1..], x);
    }
  }
}
