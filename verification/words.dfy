/** Field splitting of an unquoted parameter expansion, as bash applies it to
    `${EDITOR:-nano}` with the default IFS (space, tab, newline). */
module Words {

  /** A character of the default IFS. */
  predicate IsBlank(c: char) {
    c == ' ' || c == '\t' || c == '\n'
  }

  /** A well-formed field: non-empty and free of IFS characters. */
  predicate IsField(w: string) {
    |w| > 0 && forall i :: 0 <= i < |w| ==> !IsBlank(w[i])
  }

  /** The characters of `s` that are not IFS characters, in order. */
  function NonBlank(s: string): string
  {
    if s == [] then []
    else (if IsBlank(s[0]) then [] else [s[0]]) + NonBlank(s[1..])
  }

  /** Concatenation of a sequence of fields. */
  function Concat(ws: seq<string>): string
  {
    if ws == [] then [] else ws[0] + Concat(ws[1..])
  }

  /** Splits `s` into fields, `pending` being the field read so far. */
  function SplitFrom(s: string, pending: string): (ws: seq<string>)
    requires pending == [] || IsField(pending)
    ensures forall i :: 0 <= i < |ws| ==> IsField(ws[i])
    ensures Concat(ws) == pending + NonBlank(s)
    decreases |s|
  {
    if s == [] then
      (if pending == [] then [] else [pending])
    else if IsBlank(s[0]) then
      assert NonBlank(s) == NonBlank(s[1..]);
      var tail := SplitFrom(s[1..], []);
      if pending == [] then tail
      else
        assert Concat([pending]) == pending;
        ConcatAppend([pending], tail);
        [pending] + tail
    else
      assert NonBlank(s) == [s[0]] + NonBlank(s[1..]);
      assert IsField(pending + [s[0]]);
      assert pending + [s[0]] + NonBlank(s[1..]) == pending + NonBlank(s);
      SplitFrom(s[1..], pending + [s[0]])
  }

  /** The fields of `s`: the maximal runs of non-IFS characters, in order.
      Every field is well formed and, together, they hold exactly the
      non-blank characters of `s`. */
  function Split(s: string): (ws: seq<string>)
    ensures forall i :: 0 <= i < |ws| ==> IsField(ws[i])
    ensures Concat(ws) == NonBlank(s)
  {
    SplitFrom(s, [])
  }

  /** Fields joined by single spaces, the way a user writes `EDITOR="code -w"`. */
  function JoinFields(ws: seq<string>): string
  {
    if ws == [] then []
    else if |ws| == 1 then ws[0]
    else ws[0] + " " + JoinFields(ws[1..])
  }

  /** A run of IFS characters, possibly empty. */
  predicate IsBlanks(b: string) {
    forall i :: 0 <= i < |b| ==> IsBlank(b[i])
  }

  /** Fields `ws` each preceded by its blank run `seps[i]`: the general shape
      of a setting such as `"  code   -w"`. */
  function Interleave(seps: seq<string>, ws: seq<string>): string
    requires |seps| == |ws|
  {
    if ws == [] then [] else seps[0] + ws[0] + Interleave(seps[1..], ws[1..])
  }

  /** Concatenation distributes over appending field lists. */
  lemma {:induction false} ConcatAppend(a: seq<string>, b: seq<string>)
    ensures Concat(a + b) == Concat(a) + Concat(b)
    decreases |a|
  {
    if a == [] {
      assert a + b == b;
    } else {
      assert (a + b)[0] == a[0];
      assert (a + b)[1..] == a[1..] + b;
      ConcatAppend(a[1..], b);
    }
  }

  /** Reading a field's characters only extends the pending field. */
  lemma {:induction false} SplitThroughField(w: string, rest: string, pending: string)
    requires pending == [] || IsField(pending)
    requires forall i :: 0 <= i < |w| ==> !IsBlank(w[i])
    ensures pending + w == [] || IsField(pending + w)
    ensures SplitFrom(w + rest, pending) == SplitFrom(rest, pending + w)
    decreases |w|
  {
    if w != [] {
      assert (w + rest)[0] == w[0];
      assert (w + rest)[1..] == w[1..] + rest;
      assert IsField(pending + [w[0]]);
      SplitThroughField(w[1..], rest, pending + [w[0]]);
      assert pending + [w[0]] + w[1..] == pending + w;
    } else {
      assert w + rest == rest;
      assert pending + w == pending;
    }
  }

  /** Splitting undoes joining: a command line written as space-separated
      fields comes back as exactly those fields, in order. */
  lemma {:induction false} SplitJoinFields(ws: seq<string>)
    requires forall i :: 0 <= i < |ws| ==> IsField(ws[i])
    ensures Split(JoinFields(ws)) == ws
    decreases |ws|
  {
    if ws == [] {
    } else if |ws| == 1 {
      SplitThroughField(ws[0], [], []);
      assert ws[0] + [] == ws[0];
      assert [] + ws[0] == ws[0];
    } else {
      var rest := JoinFields(ws[1..]);
      assert JoinFields(ws) == ws[0] + (" " + rest);
      SplitThroughField(ws[0], " " + rest, []);
      assert [] + ws[0] == ws[0];
      assert (" " + rest)[0] == ' ';
      assert (" " + rest)[1..] == rest;
      SplitJoinFields(ws[1..]);
      assert ws == [ws[0]] + ws[1..];
    }
  }

  /** A blank run ends the pending field, if any, and is otherwise skipped. */
  lemma {:induction false} SplitThroughBlanks(b: string, rest: string, pending: string)
    requires pending == [] || IsField(pending)
    requires |b| > 0 && IsBlanks(b)
    ensures SplitFrom(b + rest, pending) == (if pending == [] then [] else [pending]) + SplitFrom(rest, [])
    decreases |b|
  {
    assert (b + rest)[0] == b[0];
    assert (b + rest)[1..] == b[1..] + rest;
    if |b| > 1 {
      SplitThroughBlanks(b[1..], rest, []);
    } else {
      assert b[1..] + rest == rest;
    }
  }

  /** Leading blanks are skipped. */
  lemma SkipLeadingBlanks(b: string, rest: string)
    requires IsBlanks(b)
    ensures SplitFrom(b + rest, []) == SplitFrom(rest, [])
  {
    if b == [] {
      assert b + rest == rest;
    } else {
      SplitThroughBlanks(b, rest, []);
    }
  }

  /** Trailing blanks only end the pending field. */
  lemma SplitTrailingBlanks(b: string, pending: string)
    requires pending == [] || IsField(pending)
    requires IsBlanks(b)
    ensures SplitFrom(b, pending) == (if pending == [] then [] else [pending])
  {
    if b != [] {
      SplitThroughBlanks(b, [], pending);
      assert b + [] == b;
    }
  }

  /** Splitting finds exactly the fields of any layout: well-formed fields
      separated by non-empty blank runs, with blank runs of any length
      (possibly none) before the first and after the last. In particular a
      setting of blanks only has no field. */
  lemma {:induction false} SplitLayout(seps: seq<string>, ws: seq<string>, trail: string)
    requires |seps| == |ws|
    requires forall i :: 0 <= i < |ws| ==> IsField(ws[i]) && IsBlanks(seps[i])
    requires forall i :: 1 <= i < |seps| ==> |seps[i]| > 0
    requires IsBlanks(trail)
    ensures Split(Interleave(seps, ws) + trail) == ws
    decreases |ws|, 0
  {
    if ws == [] {
      assert Interleave(seps, ws) + trail == trail;
      SplitTrailingBlanks(trail, []);
    } else {
      var tail := Interleave(seps[1..], ws[1..]) + trail;
      assert Interleave(seps, ws) + trail == seps[0] + (ws[0] + tail);
      SkipLeadingBlanks(seps[0], ws[0] + tail);
      SplitThroughField(ws[0], tail, []);
      assert [] + ws[0] == ws[0];
      SplitAfterFirstField(seps[1..], ws[1..], trail, ws[0]);
      assert ws == [ws[0]] + ws[1..];
    }
  }

  /** The step of `SplitLayout` after its first field `w`: the rest of the
      layout, which starts with a non-empty blank run unless it is only the
      trailing blanks, ends `w` and then yields its own fields. */
  lemma {:induction false} SplitAfterFirstField(seps: seq<string>, ws: seq<string>, trail: string, w: string)
    requires |seps| == |ws| && IsField(w)
    requires forall i :: 0 <= i < |ws| ==> IsField(ws[i]) && IsBlanks(seps[i]) && |seps[i]| > 0
    requires IsBlanks(trail)
    ensures SplitFrom(Interleave(seps, ws) + trail, w) == [w] + ws
    decreases |ws|, 1
  {
    if ws == [] {
      assert Interleave(seps, ws) + trail == trail;
      SplitTrailingBlanks(trail, w);
    } else {
      var r := ws[0] + Interleave(seps[1..], ws[1..]) + trail;
      assert Interleave(seps, ws) + trail == seps[0] + r;
      SplitThroughBlanks(seps[0], r, w);
      SplitLayout(seps, ws, trail);
      SkipLeadingBlanks(seps[0], r);
    }
  }
}
