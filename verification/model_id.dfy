/**
 * The model identifier the host sends is "<pipe id>.<backend model id>"; the pipe drops
 * the first dot-separated segment with Python's `".".join(s.split(".")[1:])`.
 */
module ModelId {

  /** Python's `s.split(".")`: never empty, and no piece contains a dot. */
  function Split(s: string): (parts: seq<string>)
    ensures |parts| >= 1
    ensures forall k :: 0 <= k < |parts| ==> '.' !in parts[k]
  {
    if |s| == 0 then [""]
    else if s[0] == '.' then [""] + Split(s[1..])
    else
      var rest := Split(s[1..]);
      [[s[0]] + rest[0]] + rest[1..]
  }

  /** Python's `".".join(parts)`. */
  function Join(parts: seq<string>): string
  {
    if |parts| == 0 then ""
    else if |parts| == 1 then parts[0]
    else parts[0] + "." + Join(parts[1..])
  }

  /** Joining the pieces of a split gives back the original string. */
  lemma {:induction false} JoinSplit(s: string)
    ensures Join(Split(s)) == s
    decreases |s|
  {
    if |s| > 0 {
      JoinSplit(s[1..]);
      var rest := Split(s[1..]);
      if s[0] == '.' {
        assert Split(s)[1..] == rest;
      } else if |rest| > 1 {
        var parts := Split(s);
        assert parts[1..] == rest[1..];
        assert Join(rest) == rest[0] + "." + Join(rest[1..]);
      }
    }
  }

  /** A string without dots splits into itself alone. */
  lemma {:induction false} SplitNoDot(s: string)
    requires '.' !in s
    ensures Split(s) == [s]
    decreases |s|
  {
    if |s| > 0 {
      assert '.' !in s[1..] by {
        forall c | c in s[1..] ensures c != '.' { assert c in s; }
      }
      SplitNoDot(s[1..]);
      assert s[0] != '.' by { assert s[0] in s; }
      assert [s[0]] + s[1..] == s;
    }
  }

  /** Splitting at the first dot peels off the segment before it. */
  lemma {:induction false} SplitAtFirstDot(s: string, i: nat)
    requires i < |s| && s[i] == '.' && '.' !in s[..i]
    ensures Split(s) == [s[..i]] + Split(s[i + 1..])
    decreases i
  {
    if i > 0 {
      var t := s[1..];
      assert t[i - 1] == '.';
      assert t[..i - 1] == s[1..i];
      assert '.' !in t[..i - 1] by {
        forall k | 0 <= k < i - 1 ensures t[k] != '.' { assert t[k] == s[..i][k + 1]; }
      }
      SplitAtFirstDot(t, i - 1);
      assert t[i..] == s[i + 1..];
      assert s[0] != '.' by { assert s[0] in s[..i]; }
      assert [s[0]] + t[..i - 1] == s[..i];
    }
  }

  /** Position of the first dot of a string that has one. */
  function FirstDot(s: string): (i: nat)
    requires '.' in s
    ensures i < |s| && s[i] == '.' && '.' !in s[..i]
  {
    if s[0] == '.' then 0
    else
      var i := FirstDot(s[1..]) + 1;
      assert s[..i] == [s[0]] + s[1..][..i - 1];
      i
  }

  /** Dropping the first piece of a split leaves exactly the text after the first dot. */
  lemma DropFirstPieceAfterDot(s: string, i: nat)
    requires i < |s| && s[i] == '.' && '.' !in s[..i]
    ensures Join(Split(s)[1..]) == s[i + 1..]
  {
    SplitAtFirstDot(s, i);
    assert Split(s)[1..] == Split(s[i + 1..]);
    JoinSplit(s[i + 1..]);
  }

  /** Without a dot there is one piece, so nothing is left after dropping it. */
  lemma DropFirstPieceNoDot(s: string)
    requires '.' !in s
    ensures Join(Split(s)[1..]) == ""
  {
    SplitNoDot(s);
  }

  /**
   * The backend model id: for an id with a dot, exactly the text after the first dot, so
   * that the id is its first segment, a dot, and the result; "" for an id without a dot.
   */
  function StripProvider(model: string): (r: string)
    ensures '.' !in model ==> r == ""
    ensures '.' in model ==> r == model[FirstDot(model) + 1..]
    ensures '.' in model ==> model == model[..FirstDot(model)] + "." + r
  {
    if '.' in model then
      DropFirstPieceAfterDot(model, FirstDot(model));
      assert model == model[..FirstDot(model)] + "." + model[FirstDot(model) + 1..];
      Join(Split(model)[1..])
    else
      DropFirstPieceNoDot(model);
      Join(Split(model)[1..])
  }
}
