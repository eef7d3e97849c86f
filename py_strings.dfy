/**
 * The Python `str` operations that the request handlers apply to query
 * parameters: `strip()`, `split(',')`, `','.join(...)` and `upper()`.
 * Strings are sequences of Unicode scalar values, as Python's are.
 */
module PyStrings {

  /** The characters for which Python's `str.isspace()` holds. */
  predicate IsSpace(c: char)
  {
    || c == ' '
    || '\t' <= c <= '\r'
    || '\U{1C}' <= c <= '\U{1F}'
    || c == '\U{85}' || c == '\U{A0}' || c == '\U{1680}'
    || '\U{2000}' <= c <= '\U{200A}'
    || c == '\U{2028}' || c == '\U{2029}' || c == '\U{202F}' || c == '\U{205F}' || c == '\U{3000}'
  }

  /** `s.lstrip()`: the suffix of `s` left after its leading whitespace. */
  function LStrip(s: string): (r: string)
    ensures |r| <= |s| && r == s[|s| - |r|..]
    ensures forall i :: 0 <= i < |s| - |r| ==> IsSpace(s[i])
    ensures r == [] || !IsSpace(r[0])
  {
    if s != [] && IsSpace(s[0]) then LStrip(s[1..]) else s
  }

  /** `s.rstrip()`: the prefix of `s` left after its trailing whitespace. */
  function RStrip(s: string): (r: string)
    ensures |r| <= |s| && r == s[..|r|]
    ensures forall i :: |r| <= i < |s| ==> IsSpace(s[i])
    ensures r == [] || !IsSpace(r[|r| - 1])
  {
    if s != [] && IsSpace(s[|s| - 1]) then RStrip(s[..|s| - 1]) else s
  }

  /** `s.strip()`. */
  function Strip(s: string): string
  {
    RStrip(LStrip(s))
  }

  /**
   * `s.strip()` is the middle of `s` between a run of leading and a run of
   * trailing whitespace, and neither of its ends is whitespace.
   */
  lemma StripMeaning(s: string)
    ensures var r := Strip(s);
      var i := |s| - |LStrip(s)|;
      && i + |r| <= |s| && r == s[i..i + |r|]
      && (forall k :: 0 <= k < i ==> IsSpace(s[k]))
      && (forall k :: i + |r| <= k < |s| ==> IsSpace(s[k]))
      && (r == [] || (!IsSpace(r[0]) && !IsSpace(r[|r| - 1])))
  {
  }

  /** Stripping twice strips nothing more. */
  lemma StripIdempotent(s: string)
    ensures Strip(Strip(s)) == Strip(s)
  {
    StripMeaning(s);
  }

  /** `s.strip()` is empty exactly when `s` is all whitespace. */
  lemma StripEmptyIffAllSpace(s: string)
    ensures Strip(s) == [] <==> forall k :: 0 <= k < |s| ==> IsSpace(s[k])
  {
    StripMeaning(s);
    var r := Strip(s);
    var i := |s| - |LStrip(s)|;
    if r != [] {
      assert s[i] == r[0];
    }
  }

  /**
   * `s.split(sep)` with an explicit separator: the pieces between the
   * occurrences of `sep`, so `""` gives `[""]` and `"a,,b"` gives
   * `["a", "", "b"]`.
   */
  function Split(s: string, sep: char): (parts: seq<string>)
    ensures |parts| >= 1
    ensures forall p :: p in parts ==> sep !in p
    decreases |s|
  {
    if s == [] then [""]
    else if s[0] == sep then [""] + Split(s[1..], sep)
    else
      var rest := Split(s[1..], sep);
      assert sep !in rest[0];
      [[s[0]] + rest[0]] + rest[1..]
  }

  /** `sep.join(parts)`. */
  function Join(parts: seq<string>, sep: char): (s: string)
  {
    if parts == [] then ""
    else if |parts| == 1 then parts[0]
    else parts[0] + [sep] + Join(parts[1..], sep)
  }

  /** Joining the pieces of a split with the same separator gives back the string. */
  lemma {:induction false} JoinSplit(s: string, sep: char)
    ensures Join(Split(s, sep), sep) == s
    decreases |s|
  {
    if s != [] {
      var rest := Split(s[1..], sep);
      JoinSplit(s[1..], sep);
      if s[0] == sep {
        JoinCons("", rest, sep);
      } else {
        JoinExtendHead(s[0], rest, sep);
      }
      assert [s[0]] + s[1..] == s;
    }
  }

  /** Joining a piece in front of a non-empty list of pieces puts one separator between. */
  lemma JoinCons(p: string, rest: seq<string>, sep: char)
    requires |rest| >= 1
    ensures Join([p] + rest, sep) == p + [sep] + Join(rest, sep)
  {
    assert ([p] + rest)[1..] == rest;
  }

  /** Prepending a character to the first piece prepends it to the join. */
  lemma JoinExtendHead(c: char, rest: seq<string>, sep: char)
    requires |rest| >= 1
    ensures Join([[c] + rest[0]] + rest[1..], sep) == [c] + Join(rest, sep)
  {
    var parts := [[c] + rest[0]] + rest[1..];
    if |rest| > 1 {
      assert parts[1..] == rest[1..];
      JoinCons(rest[0], rest[1..], sep);
      assert [rest[0]] + rest[1..] == rest;
    }
  }

  /** Splitting a join of separator-free pieces gives back the pieces. */
  lemma {:induction false} SplitJoin(parts: seq<string>, sep: char)
    requires |parts| >= 1
    requires forall p :: p in parts ==> sep !in p
    ensures Split(Join(parts, sep), sep) == parts
    decreases |Join(parts, sep)|, |parts[0]|
  {
    var p := parts[0];
    if |parts| == 1 {
      SplitPiece(p, sep);
    } else if p == [] {
      var tail := Join(parts[1..], sep);
      assert Join(parts, sep) == [sep] + tail;
      assert ([sep] + tail)[1..] == tail;
      SplitJoin(parts[1..], sep);
      assert [""] + parts[1..] == parts;
    } else {
      var s := Join(parts, sep);
      var shorter := [p[1..]] + parts[1..];
      assert s == [p[0]] + Join(shorter, sep) by {
        assert shorter[1..] == parts[1..];
      }
      assert s[1..] == Join(shorter, sep);
      assert p[0] in p && sep !in p[1..] by {
        assert forall c :: c in p[1..] ==> c in p;
      }
      SplitJoin(shorter, sep);
      assert s[0] == p[0] && p[0] != sep;
      assert [p[0]] + p[1..] == p;
      assert [[p[0]] + p[1..]] + parts[1..] == parts;
    }
  }

  /** A string without the separator splits into itself alone. */
  lemma {:induction false} SplitPiece(p: string, sep: char)
    requires sep !in p
    ensures Split(p, sep) == [p]
    decreases |p|
  {
    if p != [] {
      SplitPiece(p[1..], sep);
      assert [p[0]] + p[1..] == p;
    }
  }

  predicate IsAsciiLower(c: char)
  {
    'a' <= c <= 'z'
  }

  /** `c.upper()` restricted to ASCII: `a`..`z` become `A`..`Z`. */
  function UpperChar(c: char): char
  {
    if IsAsciiLower(c) then (c as int - 32) as char else c
  }

  /** `s.upper()`, with ASCII case mapping only. */
  function Upper(s: string): (r: string)
    ensures |r| == |s|
    ensures forall i :: 0 <= i < |r| ==> !IsAsciiLower(r[i])
    ensures forall i :: 0 <= i < |s| && !IsAsciiLower(s[i]) ==> r[i] == s[i]
    ensures forall i :: 0 <= i < |s| && IsAsciiLower(s[i]) ==> r[i] as int == s[i] as int - 32
  {
    if s == [] then [] else [UpperChar(s[0])] + Upper(s[1..])
  }

  /** Upper-casing an upper-cased string changes nothing. */
  lemma {:induction false} UpperIdempotent(s: string)
    ensures Upper(Upper(s)) == Upper(s)
  {
    var u := Upper(s);
    UpperNoop(u);
  }

  /** A string with no ASCII lower-case letter is its own upper case. */
  lemma {:induction false} UpperNoop(s: string)
    requires forall i :: 0 <= i < |s| ==> !IsAsciiLower(s[i])
    ensures Upper(s) == s
  {
    if s != [] {
      UpperNoop(s[1..]);
      assert [s[0]] + s[1..] == s;
    }
  }

  /** A string is its own upper case exactly when it has no ASCII lower-case letter. */
  lemma UpperFixedIffNoLower(s: string)
    ensures Upper(s) == s <==> forall i :: 0 <= i < |s| ==> !IsAsciiLower(s[i])
  {
    if forall i :: 0 <= i < |s| ==> !IsAsciiLower(s[i]) {
      UpperNoop(s);
    }
  }
}
