/** The storage key under which an uploaded avatar is stored: the file extension is
    taken as `name.split(".").pop()`, and the key is
    `avatars/<user id>-<timestamp>.<extension>`. */
module AvatarPaths {

  /** The folder prefix of every avatar key. */
  const AvatarFolder: string := "avatars/"

  /** JavaScript's `s.split(sep)` for a one-character separator: the maximal pieces
      between separators, in order; there is always at least one piece. */
  function Split(s: string, sep: char): (parts: seq<string>)
    ensures |parts| >= 1
    ensures forall i :: 0 <= i < |parts| ==> sep !in parts[i]
  {
    if s == [] then [[]]
    else
      var rest := Split(s[1..], sep);
      if s[0] == sep then [[]] + rest
      else [[s[0]] + rest[0]] + rest[1..]
  }

  /** JavaScript's `parts.join(sep)`. */
  function Join(parts: seq<string>, sep: char): string
    requires |parts| >= 1
  {
    if |parts| == 1 then parts[0] else parts[0] + [sep] + Join(parts[1..], sep)
  }

  /** Splitting loses nothing: joining the pieces back gives the original text. */
  lemma {:induction false} JoinSplit(s: string, sep: char)
    ensures Join(Split(s, sep), sep) == s
  {
    if s != [] {
      var rest := Split(s[1..], sep);
      JoinSplit(s[1..], sep);
      if s[0] == sep {
        assert ([[]] + rest)[1..] == rest;
      } else if |rest| > 1 {
        var parts := [[s[0]] + rest[0]] + rest[1..];
        assert parts[1..] == rest[1..];
        assert Join(rest, sep) == rest[0] + [sep] + Join(rest[1..], sep);
        assert s == [s[0]] + s[1..];
      } else {
        assert s == [s[0]] + s[1..];
      }
    }
  }

  /** The last piece of a split is the text after the last separator: a suffix of
      `s` that is either the whole of `s` (exactly when there is one piece) or
      preceded by a separator. */
  lemma {:induction false} LastPieceFollowsLastSeparator(s: string, sep: char)
    ensures var p := Split(s, sep);
            var e := p[|p| - 1];
            && |e| <= |s| && e == s[|s| - |e|..]
            && (|e| < |s| ==> s[|s| - |e| - 1] == sep)
            && (|p| == 1 ==> e == s)
            && (|p| > 1 ==> |e| < |s|)
  {
    if s != [] {
      var rest := Split(s[1..], sep);
      LastPieceFollowsLastSeparator(s[1..], sep);
      var e := rest[|rest| - 1];
      assert s[1..][|s| - 1 - |e|..] == s[|s| - |e|..];
      if s[0] == sep {
        var p := [[]] + rest;
        assert p[|p| - 1] == e;
        if |e| < |s| - 1 {
          assert s[|s| - |e| - 1] == s[1..][|s| - 1 - |e| - 1];
        }
      } else {
        var p := [[s[0]] + rest[0]] + rest[1..];
        if |rest| == 1 {
          assert p[|p| - 1] == [s[0]] + s[1..] == s;
        } else {
          assert p[|p| - 1] == e;
          if |e| < |s| - 1 {
            assert s[|s| - |e| - 1] == s[1..][|s| - 1 - |e| - 1];
          }
        }
      }
    }
  }

  /** Text without the separator is a single piece. */
  lemma {:induction false} SplitWithoutSeparator(e: string, sep: char)
    requires sep !in e
    ensures Split(e, sep) == [e]
  {
    if e != [] {
      SplitWithoutSeparator(e[1..], sep);
      assert [e[0]] + e[1..] == e;
    }
  }

  /** Appending a separator and separator-free text adds exactly one last piece. */
  lemma {:induction false} SplitAppend(x: string, e: string, sep: char)
    requires sep !in e
    ensures Split(x + [sep] + e, sep) == Split(x, sep) + [e]
  {
    var s := x + [sep] + e;
    if x == [] {
      assert s[1..] == e;
      SplitWithoutSeparator(e, sep);
    } else {
      assert s[0] == x[0];
      assert s[1..] == x[1..] + [sep] + e;
      SplitAppend(x[1..], e, sep);
      var tail := Split(x[1..], sep);
      assert Split(s[1..], sep) == tail + [e];
      if x[0] != sep {
        assert (tail + [e])[0] == tail[0];
        assert (tail + [e])[1..] == tail[1..] + [e];
      }
    }
  }

  /** `name.split(".").pop()`: the text after the last dot, or the whole name when
      it has no dot. */
  function FileExtension(name: string): (ext: string)
    ensures '.' !in ext
    ensures |ext| <= |name| && ext == name[|name| - |ext|..]
    ensures |ext| < |name| ==> name[|name| - |ext| - 1] == '.'
    ensures '.' !in name ==> ext == name
  {
    LastPieceFollowsLastSeparator(name, '.');
    var parts := Split(name, '.');
    parts[|parts| - 1]
  }

  /** Whatever precedes the last dot, the extension is what follows it. */
  lemma ExtensionAfterLastDot(prefix: string, ext: string)
    requires '.' !in ext
    ensures FileExtension(prefix + "." + ext) == ext
  {
    SplitAppend(prefix, ext, '.');
  }

  /** The character of one decimal digit. */
  function Digit(d: nat): (c: char)
    requires d < 10
    ensures '0' <= c <= '9'
  {
    (48 + d) as char
  }

  /** The value of one decimal digit character. */
  function DigitValue(c: char): nat
    requires '0' <= c <= '9'
  {
    c as int - 48
  }

  /** The text a JavaScript template literal produces for a non-negative integer
      timestamp: its decimal digits, most significant first, without leading zeros. */
  function DecimalString(n: nat): (s: string)
    ensures |s| >= 1
    ensures forall i :: 0 <= i < |s| ==> '0' <= s[i] <= '9'
    ensures |s| > 1 ==> s[0] != '0'
    ensures '.' !in s
  {
    if n < 10 then [Digit(n)] else DecimalString(n / 10) + [Digit(n % 10)]
  }

  /** Reads a string of decimal digits back as a number. */
  function DecimalValue(s: string): nat
    requires forall i :: 0 <= i < |s| ==> '0' <= s[i] <= '9'
  {
    if s == [] then 0 else 10 * DecimalValue(s[..|s| - 1]) + DigitValue(s[|s| - 1])
  }

  /** Printing a timestamp and reading it back gives the timestamp. */
  lemma {:induction false} DecimalRoundTrip(n: nat)
    ensures DecimalValue(DecimalString(n)) == n
  {
    if n >= 10 {
      DecimalRoundTrip(n / 10);
      var s := DecimalString(n);
      assert s[..|s| - 1] == DecimalString(n / 10);
    }
  }

  /** Different timestamps print differently. */
  lemma DecimalStringInjective(a: nat, b: nat)
    requires DecimalString(a) == DecimalString(b)
    ensures a == b
  {
    DecimalRoundTrip(a);
    DecimalRoundTrip(b);
  }

  /** The storage key `avatars/<userId>-<timestamp>.<extension of fileName>`. The
      extension of the key is the extension of the file. */
  function AvatarPath(userId: string, timestamp: nat, fileName: string): (path: string)
    ensures |AvatarFolder + userId + "-"| < |path|
    ensures path[..|AvatarFolder + userId + "-"|] == AvatarFolder + userId + "-"
    ensures FileExtension(path) == FileExtension(fileName)
  {
    var prefix := AvatarFolder + userId + "-" + DecimalString(timestamp);
    ExtensionAfterLastDot(prefix, FileExtension(fileName));
    prefix + "." + FileExtension(fileName)
  }

  /** The first piece of `a + sep + b` is `a` when `a` has no separator. */
  lemma {:induction false} FirstPiece(a: string, b: string, sep: char)
    requires sep !in a
    ensures Split(a + [sep] + b, sep)[0] == a
  {
    var s := a + [sep] + b;
    if a != [] {
      assert s[1..] == a[1..] + [sep] + b;
      FirstPiece(a[1..], b, sep);
      assert [a[0]] + a[1..] == a;
    }
  }

  /** Proof step for `AvatarPathsDistinct`: the key re-bracketed as the part shared
      by one user's keys, followed by the timestamp and the extension. Kept as a
      lemma of its own so that the sequence reasoning stays out of the larger proof. */
  lemma AvatarPathParts(userId: string, timestamp: nat, fileName: string)
    ensures AvatarPath(userId, timestamp, fileName)
         == (AvatarFolder + userId + "-")
          + (DecimalString(timestamp) + "." + FileExtension(fileName))
  {
  }

  /** Two uploads by the same user at different timestamps never share a key,
      whatever the two file names. */
  lemma AvatarPathsDistinct(userId: string, t1: nat, name1: string, t2: nat, name2: string)
    requires t1 != t2
    ensures AvatarPath(userId, t1, name1) != AvatarPath(userId, t2, name2)
  {
    var head := AvatarFolder + userId + "-";
    var d1, d2 := DecimalString(t1), DecimalString(t2);
    var r1 := d1 + "." + FileExtension(name1);
    var r2 := d2 + "." + FileExtension(name2);
    AvatarPathParts(userId, t1, name1);
    AvatarPathParts(userId, t2, name2);
    if r1 != r2 {
      assert (head + r1)[|head|..] == r1;
      assert (head + r2)[|head|..] == r2;
    } else {
      FirstPiece(d1, FileExtension(name1), '.');
      FirstPiece(d2, FileExtension(name2), '.');
      DecimalStringInjective(t1, t2);
    }
  }
}
