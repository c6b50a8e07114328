/** String helpers shared by the models: the few Python `str` and `pathlib`
    operations the core relies on, written out over `seq<char>`. */
module Strings {

  /** `s.startswith(p)` */
  predicate StartsWith(s: string, p: string) {
    p <= s
  }

  /** `sep.join(parts)` */
  function Join(sep: string, parts: seq<string>): string
    decreases |parts|
  {
    if |parts| == 0 then ""
    else if |parts| == 1 then parts[0]
    else parts[0] + sep + Join(sep, parts[1..])
  }

  /** `str(n)` for a non-negative integer. */
  function NatToString(n: nat): (s: string)
    ensures |s| >= 1
    ensures forall i :: 0 <= i < |s| ==> '0' <= s[i] <= '9'
    decreases n
  {
    if n < 10 then [Digit(n)] else NatToString(n / 10) + [Digit(n % 10)]
  }

  function Digit(d: nat): (c: char)
    requires d < 10
    ensures '0' <= c <= '9'
  {
    ['0', '1', '2', '3', '4', '5', '6', '7', '8', '9'][d]
  }

  function UpperChar(c: char): char {
    if 'a' <= c <= 'z' then (c as int - 32) as char else c
  }

  /** `s.upper()` on the ASCII letters; every other character is kept. */
  function Upper(s: string): (r: string)
    ensures |r| == |s|
    ensures forall i :: 0 <= i < |s| ==> r[i] == UpperChar(s[i])
  {
    seq(|s|, i requires 0 <= i < |s| => UpperChar(s[i]))
  }

  // ---------------------------------------------------------------------------
  // Code-point order on strings, as Python's `<` on `str` and `sorted`.
  // ---------------------------------------------------------------------------

  /** `a < b`: lexicographic by code point, a proper prefix coming first. */
  predicate Less(a: string, b: string)
    decreases |a|
  {
    if a == [] then b != []
    else if b == [] then false
    else if a[0] != b[0] then a[0] < b[0]
    else Less(a[1..], b[1..])
  }

  lemma {:induction false} LessIrreflexive(a: string)
    ensures !Less(a, a)
    decreases |a|
  {
    if a != [] {
      LessIrreflexive(a[1..]);
    }
  }

  lemma {:induction false} LessAsymmetric(a: string, b: string)
    requires Less(a, b)
    ensures !Less(b, a)
    decreases |a|
  {
    if a != [] && b != [] && a[0] == b[0] {
      LessAsymmetric(a[1..], b[1..]);
    }
  }

  lemma {:induction false} LessTransitive(a: string, b: string, c: string)
    requires Less(a, b) && Less(b, c)
    ensures Less(a, c)
    decreases |a|
  {
    if a != [] && a[0] == b[0] && b[0] == c[0] {
      LessTransitive(a[1..], b[1..], c[1..]);
    }
  }

  lemma {:induction false} LessTotal(a: string, b: string)
    requires a != b
    ensures Less(a, b) || Less(b, a)
    decreases |a|
  {
    if a != [] && b != [] && a[0] == b[0] {
      assert a == [a[0]] + a[1..] && b == [b[0]] + b[1..];
      LessTotal(a[1..], b[1..]);
    }
  }

  /** Strictly increasing in code-point order, hence free of duplicates. */
  predicate StrictlySorted(s: seq<string>) {
    forall i, j :: 0 <= i < j < |s| ==> Less(s[i], s[j])
  }

  /** The least element of a non-empty set of strings. */
  ghost function Least(s: set<string>): (m: string)
    requires s != {}
    ensures m in s
    ensures forall y :: y in s && y != m ==> Less(m, y)
    decreases |s|
  {
    var x :| x in s;
    var rest := s - {x};
    if rest == {} then
      assert s == {x};
      x
    else
      var m := Least(rest);
      assert x != m;
      if Less(x, m) then
        assert forall y :: y in s && y != x ==> y == m || (y in rest && y != m);
        forall y | y in rest && y != m ensures Less(x, y) {
          LessTransitive(x, m, y);
        }
        x
      else
        LessTotal(x, m);
        assert forall y :: y in s && y != m ==> y == x || (y in rest && y != m);
        m
  }

  /** `sorted(s)` for a set of strings. */
  ghost function SortedSet(s: set<string>): (r: seq<string>)
    ensures StrictlySorted(r)
    ensures forall x :: x in r <==> x in s
    ensures |r| == |s|
    decreases |s|
  {
    if s == {} then []
    else
      var m := Least(s);
      var rest := SortedSet(s - {m});
      var r := [m] + rest;
      forall i, j | 0 <= i < j < |r|
        ensures Less(r[i], r[j])
      {
        if i == 0 {
          assert r[j] == rest[j - 1] && rest[j - 1] in s - {m};
        } else {
          assert r[i] == rest[i - 1] && r[j] == rest[j - 1];
        }
      }
      assert |s - {m}| == |s| - 1;
      r
  }

  // ---------------------------------------------------------------------------
  // `s.split()`: splitting on runs of whitespace, dropping empty pieces.
  // ---------------------------------------------------------------------------

  /** The characters for which Python's `str.isspace()` holds. */
  predicate IsSpace(c: char) {
    || c == ' ' || '\t' <= c <= '\r' || '\U{001c}' <= c <= '\U{001f}'
    || c == '\U{0085}' || c == '\U{00a0}' || c == '\U{1680}'
    || '\U{2000}' <= c <= '\U{200a}' || c == '\U{2028}' || c == '\U{2029}'
    || c == '\U{202f}' || c == '\U{205f}' || c == '\U{3000}'
  }

  /** A piece of `split()` output: non-empty and free of whitespace. */
  predicate IsWord(w: string) {
    w != [] && forall i :: 0 <= i < |w| ==> !IsSpace(w[i])
  }

  /** The longest prefix of `s` that holds no whitespace. */
  function LeadingWord(s: string): (w: string)
    ensures w <= s
    ensures forall i :: 0 <= i < |w| ==> !IsSpace(w[i])
    ensures |w| < |s| ==> IsSpace(s[|w|])
    decreases |s|
  {
    if s == [] || IsSpace(s[0]) then [] else [s[0]] + LeadingWord(s[1..])
  }

  function Split(s: string): (r: seq<string>)
    decreases |s|
  {
    if s == [] then []
    else if IsSpace(s[0]) then Split(s[1..])
    else
      var w := LeadingWord(s);
      [w] + Split(s[|w|..])
  }

  /** Every piece that `split()` returns is a non-empty run of non-space characters. */
  lemma {:induction false} SplitGivesWords(s: string)
    ensures forall i :: 0 <= i < |Split(s)| ==> IsWord(Split(s)[i])
    decreases |s|
  {
    if s == [] {
    } else if IsSpace(s[0]) {
      SplitGivesWords(s[1..]);
    } else {
      var w := LeadingWord(s);
      SplitGivesWords(s[|w|..]);
    }
  }

  lemma {:induction false} LeadingWordOf(w: string, tail: string)
    requires forall i :: 0 <= i < |w| ==> !IsSpace(w[i])
    requires tail == [] || IsSpace(tail[0])
    ensures LeadingWord(w + tail) == w
    decreases |w|
  {
    if w != [] {
      assert (w + tail)[1..] == w[1..] + tail;
      LeadingWordOf(w[1..], tail);
    }
  }

  /** `" ".join(ws).split() == ws` when every piece is a word. */
  lemma {:induction false} SplitJoin(ws: seq<string>)
    requires forall i :: 0 <= i < |ws| ==> IsWord(ws[i])
    ensures Split(Join(" ", ws)) == ws
    decreases |ws|
  {
    if |ws| == 0 {
    } else if |ws| == 1 {
      LeadingWordOf(ws[0], []);
      assert ws[0] + [] == ws[0];
      assert ws[0][|ws[0]|..] == [];
    } else {
      var w, rest := ws[0], Join(" ", ws[1..]);
      var s := w + " " + rest;
      assert s == w + (" " + rest);
      LeadingWordOf(w, " " + rest);
      assert s[|w|..] == " " + rest;
      assert (" " + rest)[1..] == rest;
      SplitJoin(ws[1..]);
      assert ws == [ws[0]] + ws[1..];
    }
  }

  function TrimLeft(s: string): string
    decreases |s|
  {
    if s != [] && IsSpace(s[0]) then TrimLeft(s[1..]) else s
  }

  function TrimRight(s: string): string
    decreases |s|
  {
    if s != [] && IsSpace(s[|s| - 1]) then TrimRight(s[..|s| - 1]) else s
  }

  /** `s.strip()` */
  function Strip(s: string): string {
    TrimRight(TrimLeft(s))
  }

  /** Stripping a piece of `split()` output gives it back unchanged. */
  lemma StripWord(w: string)
    requires IsWord(w)
    ensures Strip(w) == w
  {
    assert !IsSpace(w[0]) && !IsSpace(w[|w| - 1]);
  }

  // ---------------------------------------------------------------------------
  // `s.replace(p, "")`
  // ---------------------------------------------------------------------------

  predicate OccursAt(s: string, p: string, i: int) {
    0 <= i && i + |p| <= |s| && s[i..i + |p|] == p
  }

  /** Removes every non-overlapping occurrence of `p`, scanning left to right. */
  function RemoveAll(s: string, p: string): string
    requires p != []
    decreases |s|
  {
    if |s| < |p| then s
    else if s[..|p|] == p then RemoveAll(s[|p|..], p)
    else [s[0]] + RemoveAll(s[1..], p)
  }

  /** A string without an occurrence of `p` comes back unchanged. */
  lemma {:induction false} RemoveAllAbsent(s: string, p: string)
    requires p != []
    requires forall i :: !OccursAt(s, p, i)
    ensures RemoveAll(s, p) == s
    decreases |s|
  {
    if |s| >= |p| {
      assert !OccursAt(s, p, 0);
      forall i ensures !OccursAt(s[1..], p, i) {
        assert !OccursAt(s, p, i + 1);
      }
      RemoveAllAbsent(s[1..], p);
    }
  }

  // ---------------------------------------------------------------------------
  // `pathlib.PurePosixPath(p).name`
  // ---------------------------------------------------------------------------

  /** `p.split("/")`: the pieces between slashes, in order. */
  function SplitSlash(p: string): (r: seq<string>)
    ensures |r| >= 1
    decreases |p|
  {
    if p == [] then [""]
    else
      var rest := SplitSlash(p[1..]);
      if p[0] == '/' then [""] + rest
      else [[p[0]] + rest[0]] + rest[1..]
  }

  /** No piece holds a slash. */
  lemma {:induction false} SplitSlashPieces(p: string)
    ensures forall i :: 0 <= i < |SplitSlash(p)| ==> '/' !in SplitSlash(p)[i]
    decreases |p|
  {
    if p != [] {
      SplitSlashPieces(p[1..]);
    }
  }

  /** A string without a slash is a single piece. */
  lemma {:induction false} SplitSlashPlain(p: string)
    requires '/' !in p
    ensures SplitSlash(p) == [p]
    decreases |p|
  {
    if p != [] {
      assert '/' !in p[1..] by { assert forall k | 0 <= k < |p| - 1 :: p[1..][k] == p[k + 1]; }
      SplitSlashPlain(p[1..]);
      assert [p[0]] + p[1..] == p;
    }
  }

  /** Joining with a slash adds one piece: `(dir + "/" + name).split("/")` is
      `dir.split("/")` followed by `name`. */
  lemma {:induction false} SplitSlashJoin(dir: string, name: string)
    requires '/' !in name
    ensures SplitSlash(dir + "/" + name) == SplitSlash(dir) + [name]
    decreases |dir|
  {
    var p := dir + "/" + name;
    if dir == [] {
      assert p == "/" + name && p[1..] == name;
      SplitSlashPlain(name);
    } else {
      assert p[1..] == dir[1..] + "/" + name;
      SplitSlashJoin(dir[1..], name);
      var before := SplitSlash(dir[1..]);
      var rest := before + [name];
      assert rest[0] == before[0] && rest[1..] == before[1..] + [name];
      if dir[0] != '/' {
        AppendAssoc([[dir[0]] + before[0]], before[1..], [name]);
      } else {
        AppendAssoc([""], before, [name]);
      }
    }
  }

  lemma AppendAssoc<T>(a: seq<T>, b: seq<T>, c: seq<T>)
    ensures (a + b) + c == a + (b + c)
  {
  }

  /** The path components pathlib keeps: empty and "." pieces are dropped. */
  function Components(pieces: seq<string>): seq<string>
    decreases |pieces|
  {
    if pieces == [] then []
    else if pieces[0] == "" || pieces[0] == "." then Components(pieces[1..])
    else [pieces[0]] + Components(pieces[1..])
  }

  /** The final path component, or "" when there is none. */
  function PathName(p: string): string {
    var cs := Components(SplitSlash(p));
    if cs == [] then "" else cs[|cs| - 1]
  }

  /** A plain file name: what pathlib reports as the name of `dir/name`. */
  predicate IsFileName(name: string) {
    name != "" && name != "." && '/' !in name
  }

  lemma {:induction false} ComponentsAppend(pieces: seq<string>, name: string)
    requires name != "" && name != "."
    ensures Components(pieces + [name]) == Components(pieces) + [name]
    decreases |pieces|
  {
    if pieces == [] {
    } else {
      assert (pieces + [name])[1..] == pieces[1..] + [name];
      ComponentsAppend(pieces[1..], name);
    }
  }

  /** The name of `dir/name` is `name`, whatever the directory part is. */
  lemma PathNameOfJoin(dir: string, name: string)
    requires IsFileName(name)
    ensures PathName(dir + "/" + name) == name
  {
    SplitSlashJoin(dir, name);
    ComponentsAppend(SplitSlash(dir), name);
  }

  lemma {:induction false} ComponentsFrom(pieces: seq<string>)
    requires forall i :: 0 <= i < |pieces| ==> '/' !in pieces[i]
    ensures forall i :: 0 <= i < |Components(pieces)| ==> IsFileName(Components(pieces)[i])
    decreases |pieces|
  {
    if pieces != [] {
      ComponentsFrom(pieces[1..]);
    }
  }

  /** The name is "" or a plain file name: never holds a slash, never ".". */
  lemma PathNameIsFileName(p: string)
    ensures PathName(p) == "" || IsFileName(PathName(p))
  {
    SplitSlashPieces(p);
    ComponentsFrom(SplitSlash(p));
  }

  // ---------------------------------------------------------------------------
  // Sequence helpers: stated over any element type, so that strings are
  // compared and indexed as whole values rather than character by character
  // ---------------------------------------------------------------------------

  /** Equality chains. */
  lemma Chain<T>(a: T, b: T, c: T)
    requires a == b && b == c
    ensures a == c
  {
  }

  /** Indexing into `[header] + ((before + block) + after)` inside `block`. */
  lemma LayoutIndex<T>(header: T, before: seq<T>, block: seq<T>, after: seq<T>, j: nat)
    requires j < |block|
    ensures var report := [header] + ((before + block) + after);
      && report[0] == header
      && report[1 + |before| + j] == block[j]
  {
  }

  /** What follows a prefix. */
  lemma AfterPrefix<T>(a: seq<T>, b: seq<T>)
    ensures (a + b)[|a|..] == b
  {
  }

  /** A sequence is a prefix of itself extended. */
  lemma PrefixOfAppend<T>(a: seq<T>, b: seq<T>)
    ensures a <= a + b
  {
    assert (a + b)[..|a|] == a;
  }
}
