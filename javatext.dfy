/**
 * The few java.lang.String and commons-lang StringUtils operations that the plugin
 * relies on, over Dafny strings (sequences of characters).
 */
module JavaText {
  import opened Wrappers

  /** Character.isWhitespace: the Unicode space, line and paragraph separators other than
      the non-breaking ones, plus the ASCII controls TAB, LF, VT, FF, CR and FS, GS, RS, US. */
  predicate IsWhitespace(c: char) {
    c == ' ' || c == '\t' || c == '\n' || c == '\U{000B}' || c == '\U{000C}' || c == '\r'
    || ('\U{001C}' <= c <= '\U{001F}')
    || c == '\U{1680}' || ('\U{2000}' <= c <= '\U{2006}') || ('\U{2008}' <= c <= '\U{200A}')
    || c == '\U{2028}' || c == '\U{2029}' || c == '\U{205F}' || c == '\U{3000}'
  }

  /** StringUtils.isBlank for a non-null string: empty or whitespace only. */
  predicate IsBlank(s: string) {
    forall i :: 0 <= i < |s| ==> IsWhitespace(s[i])
  }

  /** StringUtils.isEmpty, where `None` stands for `null`. */
  predicate IsEmpty(s: Option<string>) {
    s == None || s == Some("")
  }

  /** String.equals: the same length and the same character at every position, compared
      from the front. */
  predicate Equals(a: string, b: string) {
    |a| == |b| && (a == [] || (a[0] == b[0] && Equals(a[1..], b[1..])))
  }

  lemma {:induction false} EqualsIsEquality(a: string, b: string)
    ensures Equals(a, b) <==> a == b
  {
    if |a| == |b| && a != [] {
      EqualsIsEquality(a[1..], b[1..]);
      if a[0] == b[0] && a[1..] == b[1..] {
        assert a == [a[0]] + a[1..] && b == [b[0]] + b[1..];
      }
    }
  }

  /** Concatenation regrouped; stated once so that loops appending to a sequence need not
      rediscover it. */
  lemma AppendAssoc<T>(a: seq<T>, b: seq<T>, c: seq<T>)
    ensures (a + b) + c == a + (b + c)
  {
  }

  lemma AppendedAt<T>(a: seq<T>, b: seq<T>)
    ensures |a + b| == |a| + |b|
    ensures forall i :: 0 <= i < |b| ==> (a + b)[|a| + i] == b[i]
  {
  }

  lemma AppendEmpty<T>(s: seq<T>)
    ensures [] + s == s && s + [] == s
  {
  }

  /** The parts one after the other. */
  function Flatten<T>(parts: seq<seq<T>>): seq<T> {
    if parts == [] then [] else Flatten(parts[..|parts| - 1]) + parts[|parts| - 1]
  }

  /** One part more after the first k. */
  lemma FlattenStep<T>(start: seq<T>, parts: seq<seq<T>>, k: nat)
    requires k < |parts|
    ensures start + Flatten(parts[..k]) + parts[k] == start + Flatten(parts[..k + 1])
  {
    assert parts[..k + 1][..k] == parts[..k];
    AppendAssoc(start, Flatten(parts[..k]), parts[k]);
  }

  predicate StartsWith(s: string, prefix: string) {
    |prefix| <= |s| && s[..|prefix|] == prefix
  }

  predicate EndsWith(s: string, suffix: string) {
    |suffix| <= |s| && s[|s| - |suffix|..] == suffix
  }

  /** `s.replaceAll(p, q)` where `p` is a one-character regular expression with no
      special meaning and `q` a one-character replacement. */
  function ReplaceChar(s: string, from: char, to: char): (r: string)
    ensures |r| == |s|
    ensures forall i :: 0 <= i < |s| ==> r[i] == (if s[i] == from then to else s[i])
  {
    if s == [] then [] else [if s[0] == from then to else s[0]] + ReplaceChar(s[1..], from, to)
  }

  /** `s.replace(c, "")`: every occurrence of `c` removed, the other characters kept in order. */
  function RemoveChar(s: string, c: char): (r: string)
    ensures c !in r
    ensures |r| <= |s|
    ensures forall x :: x != c ==> multiset(r)[x] == multiset(s)[x]
  {
    if s == [] then []
    else
      assert s == [s[0]] + s[1..];
      (if s[0] == c then [] else [s[0]]) + RemoveChar(s[1..], c)
  }

  /** Removal works piece by piece and keeps the order: the text of two parts loses `c` from
      each part in place, and a single character is dropped exactly when it is `c`. */
  lemma RemoveCharPiecewise(a: string, b: string, c: char)
    ensures RemoveChar(a + b, c) == RemoveChar(a, c) + RemoveChar(b, c)
    ensures forall x :: RemoveChar([x], c) == (if x == c then [] else [x])
  {
    RemoveCharAppend(a, b, c);
    forall x
      ensures RemoveChar([x], c) == (if x == c then [] else [x])
    {
      assert [x][1..] == [];
    }
  }

  lemma {:induction false} RemoveCharAppend(a: string, b: string, c: char)
    ensures RemoveChar(a + b, c) == RemoveChar(a, c) + RemoveChar(b, c)
  {
    if a != [] {
      var head := if a[0] == c then [] else [a[0]];
      assert (a + b)[0] == a[0] && (a + b)[1..] == a[1..] + b;
      RemoveCharAppend(a[1..], b, c);
      assert head + (RemoveChar(a[1..], c) + RemoveChar(b, c)) == (head + RemoveChar(a[1..], c)) + RemoveChar(b, c);
    } else {
      assert a + b == b;
    }
  }

  /** Character.toLowerCase on the letters A to Z; every other character is kept. No other
      character lower-cases to a letter A to Z's lower-case form in the texts the plugin
      compares, so nothing else is modelled. */
  function LowerCase(c: char): char {
    if 'A' <= c <= 'Z' then (c as int + 32) as char else c
  }

  /** The elements joined with `sep` between them and none after the last: "a;b;c". */
  function Join(parts: seq<string>, sep: char): string {
    if parts == [] then ""
    else if |parts| == 1 then parts[0]
    else parts[0] + [sep] + Join(parts[1..], sep)
  }

  /** Each element followed by `sep`: "a;b;c;", what a StringBuilder loop appending
      element and separator produces. */
  function JoinTerminated(parts: seq<string>, sep: char): string {
    if parts == [] then "" else JoinTerminated(parts[..|parts| - 1], sep) + parts[|parts| - 1] + [sep]
  }

  /** Cutting the last separator off the terminated form gives the joined form. */
  lemma {:induction false} JoinTerminatedIsJoinPlusSep(parts: seq<string>, sep: char)
    requires parts != []
    ensures JoinTerminated(parts, sep) == Join(parts, sep) + [sep]
  {
    if |parts| == 1 {
      assert parts[..0] == [];
    } else {
      var front := parts[..|parts| - 1];
      JoinTerminatedIsJoinPlusSep(front, sep);
      JoinOfFrontAndLast(front, parts[|parts| - 1], sep);
      assert front + [parts[|parts| - 1]] == parts;
    }
  }

  /** Joining a list extended by one element. */
  lemma {:induction false} JoinOfFrontAndLast(front: seq<string>, last: string, sep: char)
    requires front != []
    ensures Join(front + [last], sep) == Join(front, sep) + [sep] + last
  {
    if |front| == 1 {
      assert (front + [last])[1..] == [last];
    } else {
      assert (front + [last])[1..] == front[1..] + [last];
      JoinOfFrontAndLast(front[1..], last, sep);
    }
  }

  /* ---------------------------------------------------------------------------------
     String.split with a character-class regular expression such as "[/=]".
     --------------------------------------------------------------------------------- */

  predicate NoneOf(s: string, delimiters: set<char>) {
    forall i :: 0 <= i < |s| ==> s[i] !in delimiters
  }

  /** Every field between delimiters, trailing empty fields included: the raw split. */
  function Fields(s: string, delimiters: set<char>): (r: seq<string>)
    ensures |r| >= 1
    ensures forall k :: 0 <= k < |r| ==> NoneOf(r[k], delimiters)
  {
    if s == [] then [""]
    else if s[0] in delimiters then [""] + Fields(s[1..], delimiters)
    else
      var rest := Fields(s[1..], delimiters);
      [[s[0]] + rest[0]] + rest[1..]
  }

  /** A text without delimiters is one field. */
  lemma {:induction false} FieldsOfPlain(a: string, delimiters: set<char>)
    requires NoneOf(a, delimiters)
    ensures Fields(a, delimiters) == [a]
  {
    if a != [] {
      FieldsOfPlain(a[1..], delimiters);
      assert [a[0]] + a[1..] == a;
    }
  }

  /** A delimiter after a delimiter-free text ends the first field there. */
  lemma {:induction false} FieldsAtDelimiter(a: string, c: char, b: string, delimiters: set<char>)
    requires NoneOf(a, delimiters) && c in delimiters
    ensures Fields(a + [c] + b, delimiters) == [a] + Fields(b, delimiters)
  {
    if a == [] {
      assert a + [c] + b == [c] + b;
      assert ([c] + b)[1..] == b;
    } else {
      assert (a + [c] + b)[1..] == a[1..] + [c] + b;
      FieldsAtDelimiter(a[1..], c, b, delimiters);
      assert [a[0]] + a[1..] == a;
    }
  }

  /** The fields between the occurrences of one delimiter, joined back with it, give the
      text: splitting loses nothing. */
  lemma {:induction false} FieldsJoinBack(s: string, c: char)
    ensures Join(Fields(s, {c}), c) == s
  {
    if s != [] {
      var rest := Fields(s[1..], {c});
      FieldsJoinBack(s[1..], c);
      if s[0] == c {
        assert ([""] + rest)[1..] == rest;
        assert [s[0]] + s[1..] == s;
      } else {
        JoinExtendsFirst([s[0]], rest, c);
        assert [s[0]] + s[1..] == s;
      }
    }
  }

  /** Text put before the first element comes before the whole join. */
  lemma JoinExtendsFirst(x: string, parts: seq<string>, sep: char)
    requires parts != []
    ensures Join([x + parts[0]] + parts[1..], sep) == x + Join(parts, sep)
  {
    var extended := [x + parts[0]] + parts[1..];
    if |parts| > 1 {
      assert extended[1..] == parts[1..];
    }
  }

  /** The number of characters of `s` in `delimiters`. */
  function DelimiterCount(s: string, delimiters: set<char>): nat {
    if s == [] then 0 else (if s[0] in delimiters then 1 else 0) + DelimiterCount(s[1..], delimiters)
  }

  /** A text has one field more than it has delimiters. */
  lemma {:induction false} FieldsCount(s: string, delimiters: set<char>)
    ensures |Fields(s, delimiters)| == DelimiterCount(s, delimiters) + 1
  {
    if s != [] {
      FieldsCount(s[1..], delimiters);
    }
  }

  /** The fields with the trailing empty ones removed. */
  function DropTrailingEmpty(fields: seq<string>): (r: seq<string>)
    ensures |r| <= |fields| && r == fields[..|r|]
    ensures r == [] || r[|r| - 1] != ""
    ensures forall k :: |r| <= k < |fields| ==> fields[k] == ""
  {
    if fields == [] then []
    else if fields[|fields| - 1] == "" then DropTrailingEmpty(fields[..|fields| - 1])
    else fields
  }

  /** String.split(regex) for a regular expression matching one character of `delimiters`:
      the text itself when nothing matches, otherwise the fields (a leading empty field
      kept) with the trailing empty fields dropped. */
  function Split(s: string, delimiters: set<char>): (r: seq<string>)
    ensures forall k :: 0 <= k < |r| ==> NoneOf(r[k], delimiters)
    ensures NoneOf(s, delimiters) ==> r == [s]
    ensures !NoneOf(s, delimiters) ==>
      var fields := Fields(s, delimiters);
      && |r| <= |fields| && r == fields[..|r|]
      && (r == [] || r[|r| - 1] != "")
      && (forall k :: |r| <= k < |fields| ==> fields[k] == "")
  {
    if NoneOf(s, delimiters) then [s] else DropTrailingEmpty(Fields(s, delimiters))
  }
}
