/**
 * Building one snapshot from the providers' outputs (`get_info` in
 * src/main.rs). The providers are represented by the strings their own
 * `get_info` returned on this call, in registration order.
 */
module Snapshot {

  /** `parts` separated by `sep`: the reference definition of the snapshot. */
  function Join(parts: seq<string>, sep: string): string
    decreases |parts|
  {
    if parts == [] then ""
    else if |parts| == 1 then parts[0]
    else parts[0] + sep + Join(parts[1..], sep)
  }

  /** What the `for` loop has built after visiting `parts`: each part followed by a newline. */
  function Terminated(parts: seq<string>): string
    decreases |parts|
  {
    if parts == [] then "" else Terminated(parts[..|parts| - 1]) + parts[|parts| - 1] + "\n"
  }

  /** `String::pop`: drops the last character, and leaves the empty string alone. */
  function Pop(s: string): (r: string)
    ensures s == [] ==> r == []
    ensures s != [] ==> r + [s[|s| - 1]] == s
  {
    if s == [] then s else s[..|s| - 1]
  }

  /** The total length of `parts`. */
  function TotalLength(parts: seq<string>): nat
    decreases |parts|
  {
    if parts == [] then 0 else |parts[0]| + TotalLength(parts[1..])
  }

  /**
   * `get_info`: appends every output followed by "\n", then pops the last
   * character. The result is the outputs joined by single newlines.
   */
  method GetInfo(outputs: seq<string>) returns (info: string)
    ensures info == Join(outputs, "\n")
  {
    info := "";
    for i := 0 to |outputs|
      invariant info == Terminated(outputs[..i])
    {
      info := info + outputs[i];
      info := info + "\n";
      assert outputs[..i + 1][..i] == outputs[..i];
    }
    assert outputs[..|outputs|] == outputs;
    PopRemovesSeparator(outputs);
    info := Pop(info);
  }

  /** Adding one part at the end of a join adds one separator and the part. */
  lemma {:induction false} JoinSnoc(parts: seq<string>, last: string, sep: string)
    requires parts != []
    ensures Join(parts + [last], sep) == Join(parts, sep) + sep + last
    decreases |parts|
  {
    if |parts| > 1 {
      JoinSnoc(parts[1..], last, sep);
      assert (parts + [last])[1..] == parts[1..] + [last];
    }
  }

  /**
   * The final `pop` removes only the newline that the loop appended after
   * the last output, never a character of an output; with no outputs there
   * is nothing to remove.
   */
  lemma {:induction false} PopRemovesSeparator(parts: seq<string>)
    ensures parts == [] ==> Terminated(parts) == [] && Pop(Terminated(parts)) == Join(parts, "\n")
    ensures parts != [] ==> Terminated(parts) == Join(parts, "\n") + "\n"
    ensures Pop(Terminated(parts)) == Join(parts, "\n")
    decreases |parts|
  {
    if parts != [] {
      var init, last := parts[..|parts| - 1], parts[|parts| - 1];
      assert parts == init + [last];
      if init != [] {
        PopRemovesSeparator(init);
        JoinSnoc(init, last, "\n");
      }
      var t := Terminated(parts);
      assert t[..|t| - 1] == Join(parts, "\n");
    }
  }

  /** The snapshot is as long as all outputs together plus one newline between each two. */
  lemma {:induction false} JoinLength(parts: seq<string>)
    requires parts != []
    ensures |Join(parts, "\n")| == TotalLength(parts) + |parts| - 1
    decreases |parts|
  {
    if |parts| > 1 {
      JoinLength(parts[1..]);
    }
  }

  /** The lines of `s`: the pieces between newlines (a trailing newline gives an empty last piece). */
  function Lines(s: string): (r: seq<string>)
    ensures |r| >= 1
    decreases |s|
  {
    if s == [] then [""]
    else if s[0] == '\n' then [""] + Lines(s[1..])
    else var rest := Lines(s[1..]); [[s[0]] + rest[0]] + rest[1..]
  }

  predicate NoNewline(s: string) {
    '\n' !in s
  }

  lemma {:induction false} LinesOfLine(a: string, rest: string)
    requires NoNewline(a)
    ensures Lines(a + rest)[1..] == Lines(rest)[1..]
    ensures Lines(a + rest)[0] == a + Lines(rest)[0]
    decreases |a|
  {
    if a == [] {
      assert a + rest == rest;
    } else {
      LinesOfLine(a[1..], rest);
      var s := a + rest;
      assert s[0] == a[0] && s[0] != '\n';
      assert s[1..] == a[1..] + rest;
      assert a == [a[0]] + a[1..];
    }
  }

  /**
   * Every output of a single line becomes exactly one line of the snapshot,
   * in provider order: empty outputs are kept as blank lines, not skipped.
   */
  lemma {:induction false} LinesOfJoin(parts: seq<string>)
    requires parts != []
    requires forall i :: 0 <= i < |parts| ==> NoNewline(parts[i])
    ensures Lines(Join(parts, "\n")) == parts
    decreases |parts|
  {
    if |parts| == 1 {
      LinesOfLine(parts[0], "");
      assert parts[0] + "" == parts[0];
      assert parts == [parts[0]];
    } else {
      var tail := Join(parts[1..], "\n");
      LinesOfJoin(parts[1..]);
      LinesOfLine(parts[0], "\n" + tail);
      assert Join(parts, "\n") == parts[0] + ("\n" + tail);
      assert ("\n" + tail)[1..] == tail;
      assert Lines("\n" + tail) == [""] + Lines(tail);
      assert parts[0] + "" == parts[0];
      assert parts == [parts[0]] + parts[1..];
    }
  }

  /** The lines of a string that starts with a given character. */
  lemma LinesCons(c: char, t: string)
    ensures c == '\n' ==> Lines([c] + t) == [""] + Lines(t)
    ensures c != '\n' ==> Lines([c] + t) == [[c] + Lines(t)[0]] + Lines(t)[1..]
  {
    assert ([c] + t)[0] == c && ([c] + t)[1..] == t;
  }

  /** The inductive step of `LinesConcat` for a leading newline. */
  lemma LinesConcatNewline(tail: string, b: string)
    requires Lines(tail + "\n" + b) == Lines(tail) + Lines(b)
    ensures Lines(['\n'] + tail + "\n" + b) == Lines(['\n'] + tail) + Lines(b)
  {
    var la, lb := Lines(tail), Lines(b);
    var rest := tail + "\n" + b;
    assert ['\n'] + tail + "\n" + b == ['\n'] + rest;
    LinesCons('\n', rest);
    LinesCons('\n', tail);
    assert [""] + (la + lb) == ([""] + la) + lb;
  }

  /** The inductive step of `LinesConcat` for a leading character other than a newline. */
  lemma LinesConcatChar(c: char, tail: string, b: string)
    requires c != '\n'
    requires Lines(tail + "\n" + b) == Lines(tail) + Lines(b)
    ensures Lines([c] + tail + "\n" + b) == Lines([c] + tail) + Lines(b)
  {
    var la, lb := Lines(tail), Lines(b);
    var rest := tail + "\n" + b;
    assert [c] + tail + "\n" + b == [c] + rest;
    LinesCons(c, rest);
    LinesCons(c, tail);
    HeadOfAppend(la, lb, [c]);
  }

  /** Extending the first element of a non-empty list, before or after appending another list. */
  lemma HeadOfAppend(la: seq<string>, lb: seq<string>, prefix: string)
    requires la != []
    ensures [prefix + (la + lb)[0]] + (la + lb)[1..] == ([prefix + la[0]] + la[1..]) + lb
  {
    assert (la + lb)[0] == la[0];
    assert (la + lb)[1..] == la[1..] + lb;
  }

  /** A newline between two strings joins their lines end to end. */
  lemma {:induction false} LinesConcat(a: string, b: string)
    ensures Lines(a + "\n" + b) == Lines(a) + Lines(b)
    decreases |a|
  {
    if a == [] {
      assert a + "\n" + b == ['\n'] + b;
      LinesCons('\n', b);
      assert Lines(a) == [""];
    } else {
      LinesConcat(a[1..], b);
      if a[0] == '\n' {
        LinesConcatNewline(a[1..], b);
      } else {
        LinesConcatChar(a[0], a[1..], b);
      }
      assert a == [a[0]] + a[1..];
    }
  }

  /** The lines of each part, one part after another. */
  function AllLines(parts: seq<string>): seq<string>
    decreases |parts|
  {
    if parts == [] then [] else Lines(parts[0]) + AllLines(parts[1..])
  }

  /**
   * The lines of a snapshot are the lines of the outputs in provider
   * order; an output that itself holds a newline contributes more than
   * one line.
   */
  lemma {:induction false} LinesOfJoinAll(parts: seq<string>)
    requires parts != []
    ensures Lines(Join(parts, "\n")) == AllLines(parts)
    decreases |parts|
  {
    if |parts| == 1 {
      assert AllLines(parts) == Lines(parts[0]) + AllLines([]);
    } else {
      LinesOfJoinAll(parts[1..]);
      LinesConcat(parts[0], Join(parts[1..], "\n"));
    }
  }
}
