/**
 * The parts of PHP's value semantics and of its standard functions that the
 * plugin's code depends on: truthiness and `empty()`, `(string)` casts,
 * `explode`, `strtoupper`, `strpos(...) === 0`, `dirname` and `basename`.
 * WordPress's sanitising and escaping helpers are kept uninterpreted: they
 * are fields of the `Helpers` record, so every property proved here holds
 * whatever those helpers do.
 */
module Php {

  /** A PHP value as far as the plugin inspects it (floats and objects are not modelled). */
  datatype Value = Null | Bool(b: bool) | Int(i: int) | Str(s: string) | Arr(size: nat)

  /** `empty($s)` for a string: only "" and "0" are falsy. */
  predicate EmptyString(s: string) {
    s == "" || s == "0"
  }

  /** The `(bool)` cast. */
  predicate Truthy(v: Value) {
    match v
    case Null => false
    case Bool(b) => b
    case Int(i) => i != 0
    case Str(s) => !EmptyString(s)
    case Arr(n) => n > 0
  }

  /** `isset($m[$k])`: the key is present and its value is not null. */
  predicate IsSet(m: map<string, Value>, k: string) {
    k in m && m[k] != Null
  }

  /** `empty($m[$k])`: the key is missing or its value is falsy. */
  predicate EmptyAt(m: map<string, Value>, k: string) {
    k !in m || !Truthy(m[k])
  }

  lemma {:induction false} EmptyAtIsNotSetOrFalsy(m: map<string, Value>, k: string)
    ensures EmptyAt(m, k) <==> !IsSet(m, k) || !Truthy(m[k])
  {
    if IsSet(m, k) {
      assert k in m;
    } else if k in m {
      assert m[k] == Null;
      assert !Truthy(m[k]);
    }
  }

  // ---------------------------------------------------------------------
  // Decimal digits

  predicate IsDigit(c: char) {
    '0' <= c <= '9'
  }

  function DigitChar(d: nat): (c: char)
    requires d < 10
    ensures IsDigit(c) && c as int - '0' as int == d
  {
    ('0' as int + d) as char
  }

  /** The value of a string of decimal digits (the empty string is 0). */
  function DecimalValue(s: string): nat
    requires forall i :: 0 <= i < |s| ==> IsDigit(s[i])
  {
    if s == [] then 0
    else
      assert IsDigit(s[|s| - 1]);
      10 * DecimalValue(s[..|s| - 1]) + (s[|s| - 1] as int - '0' as int)
  }

  /** The decimal representation of a natural number, as PHP prints it. */
  function NatToString(n: nat): (s: string)
    ensures |s| >= 1
    ensures forall i :: 0 <= i < |s| ==> IsDigit(s[i])
    ensures s[0] == '0' ==> n == 0
    ensures DecimalValue(s) == n
  {
    if n < 10 then [DigitChar(n)]
    else
      var s := NatToString(n / 10) + [DigitChar(n % 10)];
      assert s[..|s| - 1] == NatToString(n / 10);
      s
  }

  /** The `(string)` cast of an integer. */
  function IntToString(i: int): string {
    if i < 0 then "-" + NatToString(-i) else NatToString(i)
  }

  /** The `(string)` cast of a value. */
  function ToPhpString(v: Value): string {
    match v
    case Null => ""
    case Bool(b) => if b then "1" else ""
    case Int(i) => IntToString(i)
    case Str(s) => s
    case Arr(_) => "Array"
  }

  // ---------------------------------------------------------------------
  // explode

  /**
   * `explode($sep, $s)`: the pieces of `s` between occurrences of `sep`.
   * There is always at least one piece, and no piece contains `sep`.
   */
  function Explode(sep: char, s: string): (pieces: seq<string>)
    ensures |pieces| >= 1
    ensures forall i :: 0 <= i < |pieces| ==> sep !in pieces[i]
  {
    if s == [] then [""]
    else
      var rest := Explode(sep, s[1..]);
      if s[0] == sep then [""] + rest
      else [[s[0]] + rest[0]] + rest[1..]
  }

  /** `implode($sep, $pieces)`, the inverse of `explode`. */
  function Implode(sep: char, pieces: seq<string>): string
    requires |pieces| >= 1
  {
    if |pieces| == 1 then pieces[0] else pieces[0] + [sep] + Implode(sep, pieces[1..])
  }

  /** Exploding and joining back gives the original string. */
  lemma {:induction false} ImplodeExplode(sep: char, s: string)
    ensures Implode(sep, Explode(sep, s)) == s
  {
    if s != [] {
      var rest := Explode(sep, s[1..]);
      ImplodeExplode(sep, s[1..]);
      if s[0] == sep {
        assert Explode(sep, s) == [""] + rest;
        assert ([""] + rest)[1..] == rest;
      } else {
        var p := Explode(sep, s);
        assert p == [[s[0]] + rest[0]] + rest[1..];
        if |rest| == 1 {
          assert p == [[s[0]] + rest[0]];
        } else {
          assert p[1..] == rest[1..];
          assert Implode(sep, rest) == rest[0] + [sep] + Implode(sep, rest[1..]);
        }
      }
    }
  }

  /** Count of `c` in `s`. */
  function Occurrences(c: char, s: string): nat {
    if s == [] then 0 else (if s[0] == c then 1 else 0) + Occurrences(c, s[1..])
  }

  /** `explode` yields one more piece than there are separators. */
  lemma {:induction false} ExplodeLength(sep: char, s: string)
    ensures |Explode(sep, s)| == Occurrences(sep, s) + 1
  {
    if s != [] {
      ExplodeLength(sep, s[1..]);
    }
  }

  // ---------------------------------------------------------------------
  // Strings

  /** `strtoupper` (ASCII letters only, as PHP 8 does). */
  function ToUpper(s: string): (r: string)
    ensures |r| == |s|
    ensures forall i :: 0 <= i < |s| ==> (if 'a' <= s[i] <= 'z' then r[i] as int == s[i] as int - 32 else r[i] == s[i])
  {
    if s == [] then []
    else [if 'a' <= s[0] <= 'z' then (s[0] as int - 32) as char else s[0]] + ToUpper(s[1..])
  }

  /** `0 === strpos($s, $prefix)` for a non-empty prefix. */
  predicate StartsWith(s: string, prefix: string) {
    |prefix| <= |s| && s[..|prefix|] == prefix
  }

  // ---------------------------------------------------------------------
  // Paths

  /** Index of the last '/' in `p`, or -1 when there is none. */
  function LastSlash(p: string): (k: int)
    ensures -1 <= k < |p|
  {
    if p == [] then -1
    else if p[|p| - 1] == '/' then |p| - 1
    else LastSlash(p[..|p| - 1])
  }

  /** `LastSlash` finds the last '/': there is one at `k` and none after it. */
  lemma {:induction false} LastSlashIsLast(p: string)
    ensures LastSlash(p) >= 0 ==> p[LastSlash(p)] == '/'
    ensures forall i :: LastSlash(p) < i < |p| ==> p[i] != '/'
  {
    if p != [] && p[|p| - 1] != '/' {
      var q := p[..|p| - 1];
      LastSlashIsLast(q);
      assert forall i :: 0 <= i < |q| ==> q[i] == p[i];
    }
  }

  /** `basename($p)` for a path without a trailing slash. */
  function Basename(p: string): string {
    p[LastSlash(p) + 1..]
  }

  /** `dirname($p)` for a path without a trailing slash. */
  function Dirname(p: string): string {
    var k := LastSlash(p);
    if k < 0 then "." else if k == 0 then "/" else p[..k]
  }

  /** After a '/', a component without slashes leaves that '/' the last one. */
  lemma {:induction false} LastSlashOfSuffix(dir: string, name: string)
    requires '/' !in name
    ensures LastSlash(dir + "/" + name) == |dir|
  {
    var p := dir + "/" + name;
    if name != [] {
      var shorter := name[..|name| - 1];
      assert p[..|p| - 1] == dir + "/" + shorter;
      assert p[|p| - 1] == name[|name| - 1];
      LastSlashOfSuffix(dir, shorter);
    }
  }

  /** `basename` returns the last path component. */
  lemma BasenameOfJoin(dir: string, name: string)
    requires '/' !in name
    ensures Basename(dir + "/" + name) == name
  {
    var p := dir + "/" + name;
    assert p[|dir|] == '/';
    assert forall i :: |dir| < i < |p| ==> p[i] == name[i - |dir| - 1];
    LastSlashOfSuffix(dir, name);
    assert LastSlash(p) == |dir|;
    assert p[|dir| + 1..] == name;
  }

  /** `dirname` returns everything before the last path component. */
  lemma DirnameOfJoin(dir: string, name: string)
    requires '/' !in name && dir != ""
    ensures Dirname(dir + "/" + name) == dir
  {
    var p := dir + "/" + name;
    assert p[|dir|] == '/';
    assert forall i :: |dir| < i < |p| ==> p[i] == name[i - |dir| - 1];
    LastSlashOfSuffix(dir, name);
    assert LastSlash(p) == |dir|;
    assert p[..|dir|] == dir;
  }

  // ---------------------------------------------------------------------
  // WordPress helpers, uninterpreted

  /**
   * `sanitize_key`, `sanitize_text_field`, `esc_html`, `esc_url`,
   * `wp_kses_post`, `admin_url` and `absint`. Their behaviour is not
   * modelled; `absint` is known to return a non-negative integer.
   */
  datatype Helpers = Helpers(
    sanitizeKey: string -> string,
    sanitizeTextField: string -> string,
    escHtml: string -> string,
    escUrl: string -> string,
    ksesPost: string -> string,
    adminUrl: string -> string,
    absint: string -> nat)

  /** `absint($v)`, that is `abs((int) $v)`: exact on non-strings, the uninterpreted helper on strings. */
  function AbsInt(h: Helpers, v: Value): nat {
    match v
    case Null => 0
    case Bool(b) => if b then 1 else 0
    case Int(i) => if i < 0 then -i else i
    case Str(s) => h.absint(s)
    case Arr(n) => if n == 0 then 0 else 1
  }
}
