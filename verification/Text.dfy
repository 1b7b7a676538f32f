/** The string operations the signature headers are parsed with: split, join, strip and
    partition, as Python defines them. */
module Text {

  /** `str.isspace` on one character. */
  predicate IsSpace(c: char) {
    var n := c as int;
    || 0x09 <= n <= 0x0D || 0x1C <= n <= 0x20 || n == 0x85 || n == 0xA0 || n == 0x1680
    || 0x2000 <= n <= 0x200A || n == 0x2028 || n == 0x2029 || n == 0x202F || n == 0x205F || n == 0x3000
  }

  predicate IsAscii(s: string) {
    forall i :: 0 <= i < |s| ==> s[i] as int < 128
  }

  function Split(s: string, separator: char): (parts: seq<string>)
    ensures |parts| > 0
  {
    if s == "" then [""]
    else
      var rest := Split(s[1..], separator);
      if s[0] == separator then [""] + rest else [[s[0]] + rest[0]] + rest[1..]
  }

  function Join(parts: seq<string>, separator: char): string
    requires |parts| > 0
  {
    if |parts| == 1 then parts[0] else parts[0] + [separator] + Join(parts[1..], separator)
  }

  function LeftStrip(s: string): string {
    if s != "" && IsSpace(s[0]) then LeftStrip(s[1..]) else s
  }

  function RightStrip(s: string): string {
    if s != "" && IsSpace(s[|s| - 1]) then RightStrip(s[..|s| - 1]) else s
  }

  function Strip(s: string): string {
    RightStrip(LeftStrip(s))
  }

  /** What `str.partition` leaves before and after the first separator. */
  function Partition(s: string, separator: char): (string, string) {
    if s == "" then ("", "")
    else if s[0] == separator then ("", s[1..])
    else
      var (before, after) := Partition(s[1..], separator);
      ([s[0]] + before, after)
  }

  // ----- Split and Join undo each other -----

  lemma {:induction false} SplitConcat(a: string, separator: char, b: string)
    ensures Split(a + [separator] + b, separator) == Split(a, separator) + Split(b, separator)
  {
    if a == "" {
      assert (a + [separator] + b)[1..] == b;
    } else {
      assert (a + [separator] + b)[1..] == a[1..] + [separator] + b;
      SplitConcat(a[1..], separator, b);
    }
  }

  lemma {:induction false} SplitOne(a: string, separator: char)
    requires separator !in a
    ensures Split(a, separator) == [a]
  {
    if a != "" {
      SplitOne(a[1..], separator);
      assert [a[0]] + a[1..] == a;
    }
  }

  lemma {:induction false} SplitUndoesJoin(parts: seq<string>, separator: char)
    requires |parts| > 0
    requires forall i :: 0 <= i < |parts| ==> separator !in parts[i]
    ensures Split(Join(parts, separator), separator) == parts
  {
    SplitOne(parts[0], separator);
    if |parts| > 1 {
      SplitUndoesJoin(parts[1..], separator);
      SplitConcat(parts[0], separator, Join(parts[1..], separator));
      assert [parts[0]] + parts[1..] == parts;
    }
  }

  lemma {:induction false} JoinUndoesSplit(s: string, separator: char)
    ensures Join(Split(s, separator), separator) == s
    ensures forall i :: 0 <= i < |Split(s, separator)| ==> separator !in Split(s, separator)[i]
  {
    if s != "" {
      JoinUndoesSplit(s[1..], separator);
      var rest, parts := Split(s[1..], separator), Split(s, separator);
      assert [s[0]] + s[1..] == s;
      if s[0] == separator {
        assert parts[1..] == rest;
      } else {
        assert parts[1..] == rest[1..];
        assert forall i :: 1 <= i < |parts| ==> parts[i] == rest[i];
      }
    }
  }

  // ----- Strip -----

  predicate Stripped(s: string) {
    s == "" || (!IsSpace(s[0]) && !IsSpace(s[|s| - 1]))
  }

  lemma {:induction false} LeftStripMeaning(s: string)
    ensures |LeftStrip(s)| <= |s| && LeftStrip(s) == s[|s| - |LeftStrip(s)|..]
    ensures LeftStrip(s) == "" || !IsSpace(LeftStrip(s)[0])
  {
    if s != "" && IsSpace(s[0]) {
      LeftStripMeaning(s[1..]);
    }
  }

  lemma {:induction false} RightStripMeaning(s: string)
    ensures |RightStrip(s)| <= |s| && RightStrip(s) == s[..|RightStrip(s)|]
    ensures RightStrip(s) == "" || !IsSpace(RightStrip(s)[|RightStrip(s)| - 1])
  {
    if s != "" && IsSpace(s[|s| - 1]) {
      RightStripMeaning(s[..|s| - 1]);
    }
  }

  /** Stripping leaves a stripped piece of the string, and a stripped string as it is. */
  lemma StripMeaning(s: string)
    ensures Stripped(Strip(s))
    ensures forall c :: c in Strip(s) ==> c in s
    ensures Strip(s) == s <==> Stripped(s)
  {
    LeftStripMeaning(s);
    RightStripMeaning(LeftStrip(s));
    var l := LeftStrip(s);
    assert forall c :: c in Strip(s) ==> c in l;
    assert forall c :: c in l ==> c in s;
  }

  lemma {:induction false} PartitionMeaning(s: string, separator: char)
    ensures separator in s ==> s == Partition(s, separator).0 + [separator] + Partition(s, separator).1
    ensures separator !in s ==> Partition(s, separator) == (s, "")
    ensures separator !in Partition(s, separator).0
  {
    if s != "" && s[0] != separator {
      PartitionMeaning(s[1..], separator);
      assert s == [s[0]] + s[1..];
    } else if s != "" {
      assert s == [s[0]] + s[1..];
    }
  }

  lemma {:induction false} PartitionAfterPrefix(prefix: string, separator: char, rest: string)
    requires separator !in prefix
    ensures Partition(prefix + [separator] + rest, separator) == (prefix, rest)
  {
    var s := prefix + [separator] + rest;
    if prefix == "" {
      assert s[1..] == rest;
    } else {
      assert s[1..] == prefix[1..] + [separator] + rest;
      PartitionAfterPrefix(prefix[1..], separator, rest);
      assert [prefix[0]] + prefix[1..] == prefix;
    }
  }

  predicate Blank(s: string) {
    forall c :: c in s ==> IsSpace(c)
  }

  lemma {:induction false} BlankStripsToNothing(s: string)
    ensures Strip(s) == "" <==> Blank(s)
  {
    LeftStripMeaning(s);
    RightStripMeaning(LeftStrip(s));
    if Blank(s) {
      assert Blank(LeftStrip(s));
    } else if Strip(s) == "" {
      NothingLeft(s);
    }
  }

  lemma {:induction false} NothingLeft(s: string)
    requires !Blank(s)
    ensures LeftStrip(s) != "" && Strip(s) != ""
  {
    if IsSpace(s[0]) {
      assert !Blank(s[1..]);
      NothingLeft(s[1..]);
    } else {
      LeftmostStays(s);
    }
  }

  lemma {:induction false} LeftmostStays(s: string)
    requires s != "" && !IsSpace(s[0])
    ensures RightStrip(s) != ""
  {
    if IsSpace(s[|s| - 1]) {
      LeftmostStays(s[..|s| - 1]);
    }
  }

  /** Splitting at a blank leaves only blank parts exactly when the whole string is blank. */
  lemma {:induction false} BlankParts(s: string, separator: char)
    requires IsSpace(separator)
    ensures Blank(s) <==> forall part :: part in Split(s, separator) ==> Blank(part)
  {
    if s != "" {
      BlankParts(s[1..], separator);
      var rest := Split(s[1..], separator);
      assert s == [s[0]] + s[1..];
      if s[0] != separator {
        assert rest == [rest[0]] + rest[1..];
        assert Split(s, separator)[0] == [s[0]] + rest[0];
        assert Blank(Split(s, separator)[0]) <==> IsSpace(s[0]) && Blank(rest[0]);
      }
    }
  }

  /** The string is `core` with white space around it. */
  predicate Surrounds(s: string, core: string, before: nat, after: nat) {
    && before + |core| + after == |s|
    && Blank(s[..before]) && s[before..before + |core|] == core && Blank(s[before + |core|..])
  }

  lemma {:induction false} LeftStripExactly(s: string)
    ensures |LeftStrip(s)| <= |s| && Surrounds(s, LeftStrip(s), |s| - |LeftStrip(s)|, 0)
  {
    if s != "" && IsSpace(s[0]) {
      LeftStripExactly(s[1..]);
      LeftStripMeaning(s[1..]);
      assert s[..|s| - |LeftStrip(s)|] == [s[0]] + s[1..][..|s[1..]| - |LeftStrip(s)|];
    }
  }

  lemma {:induction false} RightStripExactly(s: string)
    ensures |RightStrip(s)| <= |s| && Surrounds(s, RightStrip(s), 0, |s| - |RightStrip(s)|)
  {
    if s != "" && IsSpace(s[|s| - 1]) {
      var init := s[..|s| - 1];
      RightStripExactly(init);
      assert s[|RightStrip(s)|..] == init[|RightStrip(s)|..] + [s[|s| - 1]];
    }
  }

  /** `strip` takes away white space at both ends, and nothing else. */
  lemma StripExactly(s: string) returns (before: nat, after: nat)
    ensures Stripped(Strip(s)) && Surrounds(s, Strip(s), before, after)
  {
    var l := LeftStrip(s);
    LeftStripExactly(s);
    RightStripExactly(l);
    StripMeaning(s);
    before, after := |s| - |l|, |l| - |Strip(s)|;
    assert l == s[before..];
    assert s[before..before + |Strip(s)|] == l[..|Strip(s)|] && s[before + |Strip(s)|..] == l[|Strip(s)|..];
  }

  /** The white space among ASCII characters: tab to carriage return, four separators, blank. */
  lemma AsciiSpaces(c: char)
    requires c as int < 128
    ensures IsSpace(c) <==> 9 <= c as int <= 13 || 28 <= c as int <= 32
  {
  }

  // ----- The order of strings -----

  /** `<` on strings: by the first character in which they differ, a prefix first. */
  predicate Before(a: string, b: string) {
    b != "" && (a == "" || a[0] < b[0] || (a[0] == b[0] && Before(a[1..], b[1..])))
  }

  lemma {:induction false} BeforeIsAStrictOrder(a: string, b: string, c: string)
    ensures Before(a, b) && Before(b, c) ==> Before(a, c)
    ensures a != b ==> Before(a, b) || Before(b, a)
    ensures !(Before(a, b) && Before(b, a))
  {
    if a != "" && b != "" {
      if c != "" {
        BeforeIsAStrictOrder(a[1..], b[1..], c[1..]);
      } else {
        BeforeIsAStrictOrder(a[1..], b[1..], c);
      }
      assert a == [a[0]] + a[1..] && b == [b[0]] + b[1..];
    }
  }

  lemma AsciiExactly(s: string)
    ensures IsAscii(s) <==> !exists c :: c in s && c as int > 127
  {
    if !IsAscii(s) {
      var i :| 0 <= i < |s| && s[i] as int > 127;
      assert s[i] in s;
    }
  }

  /** One string is before another exactly when, after a common beginning, it ends and the
      other does not, or it has the smaller character. */
  lemma {:induction false} BeforeExactly(a: string, b: string)
    ensures Before(a, b)
            <==> exists k :: && 0 <= k <= |a| && k < |b| && a[..k] == b[..k]
                             && (k == |a| || a[k] < b[k])
  {
    if a == "" {
      assert b != "" ==> a[..0] == b[..0];
    } else if b != "" {
      BeforeExactly(a[1..], b[1..]);
      if a[0] < b[0] {
        assert a[..0] == b[..0];
      }
      if a[0] == b[0] && Before(a[1..], b[1..]) {
        var k :| && 0 <= k <= |a[1..]| && k < |b[1..]| && a[1..][..k] == b[1..][..k]
                 && (k == |a[1..]| || a[1..][k] < b[1..][k]);
        assert a[..k + 1] == [a[0]] + a[1..][..k] && b[..k + 1] == [b[0]] + b[1..][..k];
      }
      if k :| && 0 <= k <= |a| && k < |b| && a[..k] == b[..k] && (k == |a| || a[k] < b[k]) && k > 0 {
        assert a[0] == a[..k][0] == b[..k][0] == b[0];
        assert a[1..][..k - 1] == a[..k][1..] && b[1..][..k - 1] == b[..k][1..];
      }
    }
  }

  predicate Ascending(s: seq<string>) {
    forall i, j :: 0 <= i < j < |s| ==> Before(s[i], s[j])
  }

  function Inserted(s: seq<string>, x: string): (r: seq<string>)
    ensures forall y :: y in r <==> y in s || y == x
  {
    if s == [] then [x]
    else if Before(x, s[0]) then [x] + s
    else
      assert s == [s[0]] + s[1..];
      [s[0]] + Inserted(s[1..], x)
  }

  lemma {:induction false} InsertedIsAscending(s: seq<string>, x: string)
    requires Ascending(s) && x !in s
    ensures Ascending(Inserted(s, x))
  {
    if s != [] {
      BeforeIsAStrictOrder(x, s[0], "");
      if Before(x, s[0]) {
        forall i | 0 <= i < |s| ensures Before(x, s[i]) {
          BeforeIsAStrictOrder(x, s[0], s[i]);
        }
      } else {
        InsertedIsAscending(s[1..], x);
        var r := Inserted(s[1..], x);
        forall i | 0 <= i < |r| ensures Before(s[0], r[i]) {
          assert r[i] in s[1..] || r[i] == x;
        }
      }
    }
  }

  /** `sorted` of a set. */
  method Sorted(s: set<string>) returns (r: seq<string>)
    ensures Ascending(r)
    ensures forall x :: x in r <==> x in s
  {
    r := [];
    var rest := s;
    while rest != {}
      invariant rest <= s && Ascending(r)
      invariant forall x :: x in r <==> x in s && x !in rest
    {
      var x :| x in rest;
      InsertedIsAscending(r, x);
      r, rest := Inserted(r, x), rest - {x};
    }
  }

  /** Only one ascending list has the elements of a set. */
  lemma {:induction false} AscendingIsUnique(a: seq<string>, b: seq<string>)
    requires Ascending(a) && Ascending(b) && forall x :: x in a <==> x in b
    ensures a == b
  {
    if a == [] {
      assert forall i :: 0 <= i < |b| ==> b[i] in b;
    } else {
      assert a[0] in b && b[0] in a;
      BeforeIsAStrictOrder(a[0], b[0], "");
      assert a[0] == b[0];
      FirstIsNotRepeated(a);
      FirstIsNotRepeated(b);
      assert a == [a[0]] + a[1..] && b == [b[0]] + b[1..];
      assert forall x :: x in a[1..] <==> x in a && x != a[0];
      assert forall x :: x in b[1..] <==> x in b && x != b[0];
      AscendingIsUnique(a[1..], b[1..]);
    }
  }

  lemma FirstIsNotRepeated(s: seq<string>)
    requires Ascending(s) && s != []
    ensures s[0] !in s[1..]
  {
    BeforeIsAStrictOrder(s[0], s[0], "");
  }
}
