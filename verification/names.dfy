/**
 * Splitting and joining names on a one-character separator, as Go's
 * strings.Split and strings.Join do, and the scoped names built from them:
 * `namespace.pod.container` for containers and
 * `namespace.pod.container.suffix` for exec sessions.
 */
module Names {

  const Dot: char := '.'

  /** Number of occurrences of `c` in `s`. */
  function Occurrences(s: string, c: char): nat
  {
    if |s| == 0 then 0 else (if s[0] == c then 1 else 0) + Occurrences(s[1..], c)
  }

  /** Go's strings.Join: the parts with one separator between neighbours. */
  function Join(parts: seq<string>, sep: char): string
  {
    if |parts| == 0 then ""
    else if |parts| == 1 then parts[0]
    else parts[0] + [sep] + Join(parts[1..], sep)
  }

  /**
   * Go's strings.Split with a one-character separator: the pieces of `s`
   * between separators, never empty, one more piece than separators, and no
   * piece holding the separator.
   */
  function Split(s: string, sep: char): (parts: seq<string>)
    ensures |parts| == Occurrences(s, sep) + 1
    ensures forall i :: 0 <= i < |parts| ==> sep !in parts[i]
  {
    if |s| == 0 then [""]
    else
      var rest := Split(s[1..], sep);
      if s[0] == sep then [""] + rest
      else [[s[0]] + rest[0]] + rest[1..]
  }

  /** Joining the pieces of a split gives back the original string. */
  lemma {:induction false} JoinSplit(s: string, sep: char)
    ensures Join(Split(s, sep), sep) == s
  {
    if |s| > 0 {
      var rest := Split(s[1..], sep);
      JoinSplit(s[1..], sep);
      if s[0] == sep {
        assert Split(s, sep) == [""] + rest;
        assert ([""] + rest)[1..] == rest;
      } else if |rest| == 1 {
        assert Split(s, sep) == [[s[0]] + rest[0]];
      } else {
        var parts := Split(s, sep);
        assert parts == [[s[0]] + rest[0]] + rest[1..];
        assert parts[1..] == rest[1..];
        assert Join(rest, sep) == rest[0] + [sep] + Join(rest[1..], sep);
        assert Join(parts, sep) == [s[0]] + rest[0] + [sep] + Join(rest[1..], sep);
        assert s == [s[0]] + s[1..];
      }
    }
  }

  /** A separator-free prefix glues onto the first piece of what follows it. */
  lemma {:induction false} SplitPrefix(p: string, t: string, sep: char)
    requires sep !in p
    ensures Split(p + t, sep) == [p + Split(t, sep)[0]] + Split(t, sep)[1..]
  {
    if |p| > 0 {
      SplitPrefix(p[1..], t, sep);
      assert (p + t)[1..] == p[1..] + t;
      assert (p + t)[0] == p[0];
      assert [p[0]] + (p[1..] + Split(t, sep)[0]) == p + Split(t, sep)[0];
    } else {
      assert p + t == t;
      assert p + Split(t, sep)[0] == Split(t, sep)[0];
      assert Split(t, sep) == [Split(t, sep)[0]] + Split(t, sep)[1..];
    }
  }

  /** Splitting a join of separator-free parts gives back the parts. */
  lemma {:induction false} SplitJoin(parts: seq<string>, sep: char)
    requires |parts| >= 1
    requires forall i :: 0 <= i < |parts| ==> sep !in parts[i]
    ensures Split(Join(parts, sep), sep) == parts
  {
    if |parts| == 1 {
      SplitPrefix(parts[0], "", sep);
      assert parts[0] + "" == parts[0];
    } else {
      var tail := Join(parts[1..], sep);
      SplitJoin(parts[1..], sep);
      SplitPrefix(parts[0], [sep] + tail, sep);
      assert parts[0] + [sep] + tail == parts[0] + ([sep] + tail);
      assert Join(parts, sep) == parts[0] + [sep] + tail;
      assert ([sep] + tail)[0] == sep;
      assert ([sep] + tail)[1..] == tail;
      var rest := Split([sep] + tail, sep);
      assert rest == [""] + parts[1..];
      assert rest[0] == "" && rest[1..] == parts[1..];
      assert parts[0] + rest[0] == parts[0];
      assert parts == [parts[0]] + parts[1..];
    }
  }

  /** Appending a separator and a separator-free piece adds exactly that piece. */
  lemma {:induction false} SplitAppend(s: string, piece: string, sep: char)
    requires sep !in piece
    ensures Split(s + [sep] + piece, sep) == Split(s, sep) + [piece]
  {
    if |s| == 0 {
      assert s + [sep] + piece == [sep] + piece;
      assert ([sep] + piece)[1..] == piece;
      SplitJoin([piece], sep);
    } else {
      SplitAppend(s[1..], piece, sep);
      assert (s + [sep] + piece)[1..] == s[1..] + [sep] + piece;
      assert (s + [sep] + piece)[0] == s[0];
    }
  }

  /** The scoped name `a.b.c` of the parts `[a, b, c]`. */
  function Scoped(parts: seq<string>): string
  {
    Join(parts, Dot)
  }

  /** The dot segments of a name. */
  function Segments(name: string): seq<string>
  {
    Split(name, Dot)
  }

  /** A container's scoped name splits back into namespace, pod and container. */
  lemma ScopedRoundTrip(ns: string, pod: string, container: string)
    requires Dot !in ns && Dot !in pod && Dot !in container
    ensures Segments(Scoped([ns, pod, container])) == [ns, pod, container]
  {
    SplitJoin([ns, pod, container], Dot);
  }

  /**
   * An exec id, a container's scoped name followed by a dot and a
   * separator-free suffix, splits into exactly four segments, the suffix last.
   */
  lemma ExecIdSegments(ns: string, pod: string, container: string, suffix: string)
    requires Dot !in ns && Dot !in pod && Dot !in container && Dot !in suffix
    ensures Segments(Scoped([ns, pod, container]) + [Dot] + suffix) == [ns, pod, container, suffix]
  {
    ScopedRoundTrip(ns, pod, container);
    SplitAppend(Scoped([ns, pod, container]), suffix, Dot);
  }

  /** Whether `s` starts with `prefix` (Go's strings.HasPrefix). */
  predicate HasPrefix(s: string, prefix: string)
  {
    |prefix| <= |s| && s[..|prefix|] == prefix
  }

  /** Whether `s` ends with `suffix` (Go's strings.HasSuffix). */
  predicate HasSuffix(s: string, suffix: string)
  {
    |suffix| <= |s| && s[|s| - |suffix|..] == suffix
  }
}
