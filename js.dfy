/**
 * The JavaScript values and built-ins the front-end's core relies on:
 * nullable values, thrown-or-returned outcomes, the truthiness of strings,
 * `||` on strings, `String.prototype.startsWith` and `String.prototype.split`.
 */
module Js {

  /** A value that may be `null` (or `undefined`). */
  datatype Option<T> = None | Some(value: T)

  /** The outcome of a call that either returns a value or throws an `Error` with a message. */
  datatype Result<T, E> = Ok(value: T) | Err(error: E)

  /** Truthiness of a `string | null`: null and the empty string are falsy. */
  predicate Truthy(s: Option<string>)
  {
    s.Some? && s.value != ""
  }

  /** `a || b` on two strings. */
  function Or(a: string, b: string): string
  {
    if a != "" then a else b
  }

  /** `a || b` where `a` is a `string | undefined`, such as a lookup in a partial table. */
  function OrElse(a: Option<string>, b: string): string
  {
    if Truthy(a) then a.value else b
  }

  /** `s.startsWith(prefix)`. */
  predicate StartsWith(s: string, prefix: string)
  {
    prefix <= s
  }

  /**
   * `s.split(sep)` for a one-character separator: the maximal runs of
   * non-separator characters between separators, so there is always one more
   * field than there are separators, and `"".split(sep)` is `[""]`.
   */
  function Split(s: string, sep: char): (fields: seq<string>)
    ensures |fields| >= 1
    ensures forall k :: 0 <= k < |fields| ==> sep !in fields[k]
    decreases |s|
  {
    if s == [] then [""]
    else
      var rest := Split(s[1..], sep);
      if s[0] == sep then [""] + rest
      else [[s[0]] + rest[0]] + rest[1..]
  }

  /** `fields.join(sep)`: the fields with one separator between neighbours. */
  function Join(fields: seq<string>, sep: char): string
    requires |fields| >= 1
    decreases |fields|
  {
    if |fields| == 1 then fields[0] else fields[0] + [sep] + Join(fields[1..], sep)
  }

  /** Joining the fields of a split gives back the string that was split. */
  lemma {:induction false} JoinSplit(s: string, sep: char)
    ensures Join(Split(s, sep), sep) == s
    decreases |s|
  {
    if s != [] {
      var rest := Split(s[1..], sep);
      JoinSplit(s[1..], sep);
      if s[0] == sep {
        assert ([""] + rest)[1..] == rest;
      } else {
        var fields := [[s[0]] + rest[0]] + rest[1..];
        if |rest| == 1 {
          assert fields == [[s[0]] + rest[0]];
        } else {
          assert fields[1..] == rest[1..];
          assert Join(rest, sep) == rest[0] + [sep] + Join(rest[1..], sep);
        }
      }
    }
  }

  /** Splitting a string that has no separator before some suffix `t`: that prefix is glued to the first field of `t`. */
  lemma {:induction false} SplitPrefix(h: string, t: string, sep: char)
    requires sep !in h
    ensures Split(h + t, sep) == [h + Split(t, sep)[0]] + Split(t, sep)[1..]
    decreases |h|
  {
    if h != [] {
      assert (h + t)[0] == h[0];
      assert (h + t)[1..] == h[1..] + t;
      SplitPrefix(h[1..], t, sep);
      assert [h[0]] + (h[1..] + Split(t, sep)[0]) == h + Split(t, sep)[0];
    } else {
      var fields := Split(t, sep);
      assert h + t == t && h + fields[0] == fields[0];
      assert fields == [fields[0]] + fields[1..];
    }
  }

  /** Splitting a join of separator-free fields gives back those fields. */
  lemma {:induction false} SplitJoin(fields: seq<string>, sep: char)
    requires |fields| >= 1
    requires forall k :: 0 <= k < |fields| ==> sep !in fields[k]
    ensures Split(Join(fields, sep), sep) == fields
    decreases |fields|
  {
    if |fields| == 1 {
      SplitPrefix(fields[0], [], sep);
      assert fields[0] + [] == fields[0];
    } else {
      var tail := Join(fields[1..], sep);
      SplitJoin(fields[1..], sep);
      assert fields[0] + [sep] + tail == fields[0] + ([sep] + tail);
      SplitPrefix(fields[0], [sep] + tail, sep);
      assert ([sep] + tail)[1..] == tail;
      assert Split([sep] + tail, sep) == [""] + fields[1..];
      assert fields[0] + "" == fields[0];
      assert ([""] + fields[1..])[1..] == fields[1..];
    }
  }

  /** Concatenation regrouped; stated once so that proofs about long prompts need not rediscover it. */
  lemma AppendAssoc(a: string, b: string, c: string)
    ensures (a + b) + c == a + (b + c)
  {
  }

  /** A concatenation starts with its left operand and ends with its right one. */
  lemma AppendParts(a: string, b: string)
    ensures a <= a + b && (a + b)[|a|..] == b
  {
  }
}
