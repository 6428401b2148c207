/**
 * The part of JavaScript's value model and of its String built-ins that
 * assets/js/pay.js relies on.
 */
module Js {
  /** A JavaScript value as it occurs in pay.js: a message field, a launch parameter, a gateway status. */
  datatype Value = Undefined | Str(s: string) | Bool(b: bool) | Obj(fields: map<string, Value>)

  /** `parts.join(sep)`. */
  function Join(parts: seq<string>, sep: char): string
    requires |parts| > 0
  {
    if |parts| == 1 then parts[0] else parts[0] + [sep] + Join(parts[1..], sep)
  }

  /** Position of the first `c` in `s`, or `|s|` when `s` has none. */
  function IndexOf(s: string, c: char): (i: nat)
    ensures i <= |s|
    ensures c !in s[..i]
    ensures i < |s| ==> s[i] == c
  {
    if |s| == 0 then 0
    else if s[0] == c then 0
    else
      var j := IndexOf(s[1..], c);
      assert s[..1 + j] == [s[0]] + s[1..][..j];
      1 + j
  }

  lemma JoinPrepend(c: char, parts: seq<string>, sep: char)
    requires |parts| > 0
    ensures Join([[c] + parts[0]] + parts[1..], sep) == [c] + Join(parts, sep)
  {
    var q := [[c] + parts[0]] + parts[1..];
    if |parts| > 1 {
      assert q[1..] == parts[1..];
    }
  }

  /**
   * `s.split(sep)` for a one-character separator: the pieces between
   * separators, empty ones included, which `Join` puts back together.
   */
  function Split(s: string, sep: char): (parts: seq<string>)
    ensures |parts| > 0
    ensures forall i | 0 <= i < |parts| :: sep !in parts[i]
    ensures Join(parts, sep) == s
  {
    if |s| == 0 then [""]
    else
      var rest := Split(s[1..], sep);
      assert s == [s[0]] + s[1..];
      if s[0] == sep then
        assert ([""] + rest)[1..] == rest;
        [""] + rest
      else
        JoinPrepend(s[0], rest, sep);
        [[s[0]] + rest[0]] + rest[1..]
  }

  /**
   * The first piece of a split is the text before the first separator; the
   * remaining pieces are the split of the text after it, and a string without
   * the separator splits into itself alone.
   */
  lemma {:induction false} SplitFirst(s: string, sep: char)
    ensures Split(s, sep)[0] == s[..IndexOf(s, sep)]
    ensures sep !in s ==> Split(s, sep) == [s]
    ensures sep in s ==> Split(s, sep)[1..] == Split(s[IndexOf(s, sep) + 1..], sep)
  {
    if |s| > 0 {
      var t := s[1..];
      var rest := Split(t, sep);
      SplitFirst(t, sep);
      if s[0] == sep {
        assert Split(s, sep) == [""] + rest;
        assert IndexOf(s, sep) == 0;
      } else {
        assert Split(s, sep) == [[s[0]] + rest[0]] + rest[1..];
        assert IndexOf(s, sep) == 1 + IndexOf(t, sep);
        assert s[..IndexOf(s, sep)] == [s[0]] + t[..IndexOf(t, sep)];
        if sep in s {
          assert sep in t;
          assert s[IndexOf(s, sep) + 1..] == t[IndexOf(t, sep) + 1..];
        } else {
          assert s == [s[0]] + t;
        }
      }
    }
  }

  /** Splitting undoes joining pieces that hold no separator. */
  lemma {:induction false} SplitJoin(parts: seq<string>, sep: char)
    requires |parts| > 0
    requires forall i | 0 <= i < |parts| :: sep !in parts[i]
    ensures Split(Join(parts, sep), sep) == parts
  {
    var s := Join(parts, sep);
    if |parts| == 1 {
      assert sep !in s;
      SplitFirst(s, sep);
    } else {
      var head, tail := parts[0], Join(parts[1..], sep);
      assert s == head + [sep] + tail;
      assert sep !in head;
      PrefixIndex(head, sep, tail);
      assert s[|head|] == sep;
      SplitFirst(s, sep);
      assert s[..|head|] == head;
      assert s[|head| + 1..] == tail;
      SplitJoin(parts[1..], sep);
      var r := Split(s, sep);
      assert r == [r[0]] + r[1..];
      assert parts == [head] + parts[1..];
    }
  }

  lemma PrefixIndex(a: string, sep: char, b: string)
    requires sep !in a
    ensures IndexOf(a + [sep] + b, sep) == |a|
  {
    var s := a + [sep] + b;
    assert s[|a|] == sep;
    assert s[..|a|] == a;
  }
}
