// Log redaction: every secret value of a unit is replaced in the text its executor logged.

module Redaction {
  import opened Basics

  const MARK := "[REDACTED]"

  ghost predicate Occurs(w: string, t: string) {
    exists k :: OccursAt(w, t, k)
  }

  predicate OccursAt(w: string, t: string, k: int) {
    0 <= k <= |t| - |w| && t[k..k + |w|] == w
  }

  // The text between the occurrences of a value, taken from the left without overlap.
  function Split(text: string, v: string): (r: seq<string>)
    requires v != ""
    ensures r != [] && r[0] <= text
    decreases |text|
  {
    if |text| < |v| then [text]
    else if v <= text then [""] + Split(text[|v|..], v)
    else
      var r := Split(text[1..], v);
      [[text[0]] + r[0]] + r[1..]
  }

  function Join(pieces: seq<string>, separator: string): string {
    if pieces == [] then ""
    else if |pieces| == 1 then pieces[0]
    else pieces[0] + separator + Join(pieces[1..], separator)
  }

  function Replaced(text: string, v: string): string
    requires v != ""
  {
    Join(Split(text, v), MARK)
  }

  function Unique(values: seq<string>): seq<string> {
    if values == [] then []
    else
      var front, last := values[..|values| - 1], values[|values| - 1];
      if last in front then Unique(front) else Unique(front) + [last]
  }

  // A stable insertion by decreasing length.
  function InsertByLength(v: string, values: seq<string>): seq<string> {
    if values == [] || |v| >= |values[0]| then [v] + values
    else [values[0]] + InsertByLength(v, values[1..])
  }

  function LongestFirst(values: seq<string>): seq<string> {
    if values == [] then [] else InsertByLength(values[0], LongestFirst(values[1..]))
  }

  // ----- a redacted text as the original one with some secrets cut out

  datatype Layout = Kept(text: string) | Cut(text: string, secret: string, rest: Layout)

  function Original(l: Layout): string {
    match l
    case Kept(text) => text
    case Cut(text, secret, rest) => text + secret + Original(rest)
  }

  function Rendered(l: Layout): string {
    match l
    case Kept(text) => text
    case Cut(text, secret, rest) => text + MARK + Rendered(rest)
  }

  function Secrets(l: Layout): set<string> {
    match l
    case Kept(_) => {}
    case Cut(_, secret, rest) => {secret} + Secrets(rest)
  }

  // Some kept text contains this value.
  ghost predicate Shows(l: Layout, w: string) {
    match l
    case Kept(text) => Occurs(w, text)
    case Cut(text, _, rest) => Occurs(w, text) || Shows(rest, w)
  }

  function LayoutOf(pieces: seq<string>, v: string): Layout
    requires pieces != []
  {
    if |pieces| == 1 then Kept(pieces[0]) else Cut(pieces[0], v, LayoutOf(pieces[1..], v))
  }

  function Append(l: Layout, secret: string, rest: Layout): Layout {
    match l
    case Kept(text) => Cut(text, secret, rest)
    case Cut(text, s, more) => Cut(text, s, Append(more, secret, rest))
  }

  // Cuts the occurrences of one more value out of the kept text.
  function Refine(l: Layout, v: string): Layout
    requires v != ""
  {
    match l
    case Kept(text) => LayoutOf(Split(text, v), v)
    case Cut(text, secret, rest) => Append(LayoutOf(Split(text, v), v), secret, Refine(rest, v))
  }

  function RefineAll(l: Layout, values: seq<string>): Layout {
    if values == [] then l
    else
      var before := RefineAll(l, values[..|values| - 1]);
      var v := values[|values| - 1];
      if v == "" then before else Refine(before, v)
  }

  // Puts back the secrets shorter than n.
  function Restore(l: Layout, n: nat): Layout {
    match l
    case Kept(text) => l
    case Cut(text, secret, rest) =>
      if |secret| >= n then Cut(text, secret, Restore(rest, n)) else Prepend(text + secret, Restore(rest, n))
  }

  function Prepend(text: string, l: Layout): Layout {
    match l
    case Kept(t) => Kept(text + t)
    case Cut(t, secret, rest) => Cut(text + t, secret, rest)
  }

  // ----- values that cannot straddle the mark

  // The value, placed k characters after the start of the mark, agrees with it where they overlap.
  predicate Matches(w: string, k: int) {
    forall i :: 0 <= i < |w| && 0 <= k + i < |MARK| ==> w[i] == MARK[k + i]
  }

  // No placement that overlaps the mark agrees with it.
  ghost predicate Clear(w: string) {
    w != "" && forall k :: -|w| < k < |MARK| ==> !Matches(w, k)
  }

  lemma NoSharedCharacterIsClear(w: string)
    requires w != "" && forall c :: c in w ==> c !in MARK
    ensures Clear(w)
  {
    forall k | -|w| < k < |MARK|
      ensures !Matches(w, k)
    {
      var i := Max(0, -k);
      assert w[i] in w && MARK[k + i] in MARK;
    }
  }

  // A clear value occurs around a mark only before or after it.
  lemma StraddlesNothing(w: string, p: string, q: string, k: int)
    requires Clear(w) && OccursAt(w, p + MARK + q, k)
    ensures OccursAt(w, p, k) || OccursAt(w, q, k - |p| - |MARK|)
  {
    var t := p + MARK + q;
    if k + |w| <= |p| {
      assert p[k..k + |w|] == t[k..k + |w|];
    } else if k >= |p| + |MARK| {
      var j := k - |p| - |MARK|;
      assert q[j..j + |w|] == t[k..k + |w|];
    } else {
      assert Matches(w, k - |p|) by {
        forall i | 0 <= i < |w| && 0 <= k - |p| + i < |MARK|
          ensures w[i] == MARK[k - |p| + i]
        {
          assert t[k..k + |w|][i] == t[k + i];
        }
      }
      assert false;
    }
  }

  // ----- one pass

  lemma JoinFirst(c: string, pieces: seq<string>, separator: string)
    requires pieces != []
    ensures Join([c + pieces[0]] + pieces[1..], separator) == c + Join(pieces, separator)
  {
    if |pieces| > 1 {
      assert ([c + pieces[0]] + pieces[1..])[1..] == pieces[1..];
    }
  }

  lemma JoinCut(pieces: seq<string>, separator: string)
    requires pieces != []
    ensures Join([""] + pieces, separator) == separator + Join(pieces, separator)
  {
    assert ([""] + pieces)[1..] == pieces;
  }

  lemma SplitAtFront(text: string, v: string)
    requires v != "" && |text| >= |v| && v <= text
    ensures Split(text, v) == [""] + Split(text[|v|..], v)
  {
  }

  lemma {:induction false} JoinSplit(text: string, v: string)
    requires v != ""
    ensures Join(Split(text, v), v) == text
    decreases |text|
  {
    if |text| < |v| {
    } else if v <= text {
      hide Split, Join;
      SplitAtFront(text, v);
      JoinSplit(text[|v|..], v);
      JoinCut(Split(text[|v|..], v), v);
      assert text == v + text[|v|..];
    } else {
      hide Join;
      JoinSplit(text[1..], v);
      JoinFirst([text[0]], Split(text[1..], v), v);
      assert text == [text[0]] + text[1..];
    }
  }

  // How the replacement of a value proceeds from the left.
  lemma ReplacedStep(text: string, v: string)
    requires v != ""
    ensures |text| < |v| ==> Replaced(text, v) == text
    ensures |text| >= |v| && v <= text ==> Replaced(text, v) == MARK + Replaced(text[|v|..], v)
    ensures |text| >= |v| && !(v <= text) ==> Replaced(text, v) == [text[0]] + Replaced(text[1..], v)
  {
    if |text| >= |v| && v <= text {
      var r := Split(text[|v|..], v);
      assert ([""] + r)[1..] == r;
    } else if |text| >= |v| {
      JoinFirst([text[0]], Split(text[1..], v), MARK);
    }
  }

  lemma SkipOne(t: string, v: string)
    requires v != "" && t != "" && !(v <= t)
    ensures Replaced(t, v) == [t[0]] + Replaced(t[1..], v)
  {
    hide Replaced;
    ReplacedStep(t, v);
    if |t| < |v| {
      ReplacedStep(t[1..], v);
      assert t == [t[0]] + t[1..];
    }
  }

  lemma ClearIsNonempty(w: string)
    requires Clear(w)
    ensures w != ""
  {
  }

  lemma NotAtMark(w: string, i: nat, q: string)
    requires Clear(w) && i < |MARK|
    ensures !(w <= MARK[i..] + q)
  {
    assert !Matches(w, i);
    var j :| 0 <= j < |w| && 0 <= i + j < |MARK| && w[j] != MARK[i + j];
    assert (MARK[i..] + q)[j] == MARK[i + j];
  }

  lemma StartsBeforeMark(w: string, p: string, q: string)
    requires Clear(w) && p != ""
    ensures w <= p + MARK + q <==> w <= p
  {
    var t := p + MARK + q;
    assert t == p + (MARK + q);
    if w <= t {
      assert OccursAt(w, t, 0);
      StraddlesNothing(w, p, q, 0);
    }
  }

  // Replacing a clear value leaves a mark alone.
  lemma {:induction false} ReplacedAfterMark(w: string, mark: string, i: nat, q: string)
    requires Clear(w) && mark == MARK && i <= |mark|
    ensures Replaced(mark[i..] + q, w) == mark[i..] + Replaced(q, w)
    decreases |mark| - i
  {
    hide Clear, Replaced;
    ClearIsNonempty(w);
    if i == |mark| {
      assert mark[i..] + q == q;
      assert mark[i..] + Replaced(q, w) == Replaced(q, w);
    } else {
      NotAtMark(w, i, q);
      ReplacedAfterMark(w, mark, i + 1, q);
      SkipOne(mark[i..] + q, w);
      assert (mark[i..] + q)[1..] == mark[i + 1..] + q;
      assert mark[i..] == [mark[i]] + mark[i + 1..];
    }
  }

  lemma {:induction false} ReplacedAcross(w: string, p: string, q: string)
    requires Clear(w)
    ensures Replaced(p + MARK + q, w) == Replaced(p, w) + MARK + Replaced(q, w)
    decreases |p|
  {
    hide Clear, Replaced;
    var t := p + MARK + q;
    ClearIsNonempty(w);
    if p == "" {
      ReplacedAfterMark(w, MARK, 0, q);
      assert t == MARK[0..] + q;
      ReplacedStep(p, w);
    } else {
      StartsBeforeMark(w, p, q);
      if w <= p {
        ReplacedStep(t, w);
        ReplacedStep(p, w);
        ReplacedAcross(w, p[|w|..], q);
        assert t[|w|..] == p[|w|..] + MARK + q;
      } else {
        SkipOne(t, w);
        SkipOne(p, w);
        ReplacedAcross(w, p[1..], q);
        assert t[1..] == p[1..] + MARK + q;
      }
    }
  }

  // ----- one pass over a layout

  lemma {:induction false} LayoutOfJoins(pieces: seq<string>, v: string)
    requires pieces != []
    ensures Rendered(LayoutOf(pieces, v)) == Join(pieces, MARK)
    ensures Original(LayoutOf(pieces, v)) == Join(pieces, v)
    ensures Secrets(LayoutOf(pieces, v)) <= {v}
    decreases |pieces|
  {
    if |pieces| > 1 {
      LayoutOfJoins(pieces[1..], v);
    }
  }

  lemma Regrouped(a: string, b: string, c: string, d: string, e: string)
    ensures a + b + (c + d + e) == (a + b + c) + d + e
  {
  }

  lemma {:induction false} AppendJoins(l: Layout, secret: string, rest: Layout)
    ensures Rendered(Append(l, secret, rest)) == Rendered(l) + MARK + Rendered(rest)
    ensures Original(Append(l, secret, rest)) == Original(l) + secret + Original(rest)
    ensures Secrets(Append(l, secret, rest)) == Secrets(l) + {secret} + Secrets(rest)
  {
    if l.Cut? {
      AppendJoins(l.rest, secret, rest);
      Regrouped(l.text, MARK, Rendered(l.rest), MARK, Rendered(rest));
      Regrouped(l.text, l.secret, Original(l.rest), secret, Original(rest));
    }
  }

  // Refining a layout is one pass over its rendered text, and keeps the original text.
  lemma {:induction false} RefineIsPass(l: Layout, v: string)
    requires Clear(v)
    ensures Rendered(Refine(l, v)) == Replaced(Rendered(l), v)
    ensures Original(Refine(l, v)) == Original(l)
    ensures Secrets(Refine(l, v)) <= Secrets(l) + {v}
  {
    hide Clear, Split;
    ClearIsNonempty(v);
    LayoutOfJoins(Split(l.text, v), v);
    JoinSplit(l.text, v);
    if l.Cut? {
      RefineIsPass(l.rest, v);
      AppendJoins(LayoutOf(Split(l.text, v), v), l.secret, Refine(l.rest, v));
      ReplacedAcross(v, l.text, Rendered(l.rest));
    }
  }

  // ----- what stays visible

  lemma OccursInside(w: string, part: string, before: string, after: string)
    ensures Occurs(w, part) ==> Occurs(w, before + part + after)
  {
    if k :| OccursAt(w, part, k) {
      var t := before + part + after;
      assert t[|before| + k..|before| + k + |w|] == part[k..k + |w|];
      assert OccursAt(w, t, |before| + k);
    }
  }

  ghost predicate NoneShows(pieces: seq<string>, w: string) {
    forall i :: 0 <= i < |pieces| ==> !Occurs(w, pieces[i])
  }

  lemma OccursAfterFirst(w: string, c: char, text: string)
    requires !(w <= [c] + text)
    ensures Occurs(w, [c] + text) ==> Occurs(w, text)
  {
    if k :| OccursAt(w, [c] + text, k) {
      assert text[k - 1..k - 1 + |w|] == ([c] + text)[k..k + |w|];
      assert OccursAt(w, text, k - 1);
    }
  }

  // The pieces of a split are parts of the text, and none contains the value.
  lemma {:induction false} PiecesHide(text: string, v: string)
    requires v != ""
    ensures NoneShows(Split(text, v), v)
    decreases |text|
  {
    hide Occurs;
    NothingInShort(v);
    if |text| < |v| {
    } else if v <= text {
      PiecesHide(text[|v|..], v);
    } else {
      PiecesHide(text[1..], v);
      var r := Split(text[1..], v);
      assert [text[0]] + r[0] <= text by {
        assert text == [text[0]] + text[1..];
      }
      OccursAfterFirst(v, text[0], r[0]);
    }
  }

  lemma NothingInShort(v: string)
    ensures forall t: string :: |t| < |v| ==> !Occurs(v, t)
  {
  }

  lemma {:induction false} PiecesAreParts(text: string, v: string, w: string)
    requires v != "" && !Occurs(w, text)
    ensures NoneShows(Split(text, v), w)
    decreases |text|
  {
    hide Occurs;
    if |text| < |v| {
    } else if v <= text {
      SuffixHides(w, text, |v|);
      EmptyHides(w, text);
      PiecesAreParts(text[|v|..], v, w);
    } else {
      SuffixHides(w, text, 1);
      PiecesAreParts(text[1..], v, w);
      PrefixHides(w, text, Split(text, v)[0]);
      hide Split, NoneShows;
      SplitLater(text, v);
      HiddenPieces(Split(text[1..], v), [text[0]] + Split(text[1..], v)[0], w);
    }
  }

  lemma HiddenPieces(pieces: seq<string>, first: string, w: string)
    requires pieces != [] && NoneShows(pieces, w) && !Occurs(w, first)
    ensures NoneShows([first] + pieces[1..], w)
  {
    hide Occurs;
  }

  lemma PrefixHides(w: string, text: string, first: string)
    requires !Occurs(w, text) && first <= text
    ensures !Occurs(w, first)
  {
    hide Occurs;
    OccursInside(w, first, "", text[|first|..]);
    assert "" + first + text[|first|..] == text;
  }

  lemma SuffixHides(w: string, text: string, n: nat)
    requires !Occurs(w, text) && n <= |text|
    ensures !Occurs(w, text[n..])
  {
    hide Occurs;
    OccursInside(w, text[n..], text[..n], "");
    assert text[..n] + text[n..] + "" == text;
  }

  lemma EmptyHides(w: string, text: string)
    requires !Occurs(w, text)
    ensures !Occurs(w, "")
  {
    assert w == "" ==> OccursAt(w, text, 0);
  }

  lemma {:induction false} LayoutShows(pieces: seq<string>, v: string, w: string)
    requires pieces != [] && NoneShows(pieces, w)
    ensures !Shows(LayoutOf(pieces, v), w)
    decreases |pieces|
  {
    if |pieces| > 1 {
      LayoutShows(pieces[1..], v, w);
    }
  }

  lemma {:induction false} AppendShows(l: Layout, secret: string, rest: Layout, w: string)
    ensures Shows(Append(l, secret, rest), w) <==> Shows(l, w) || Shows(rest, w)
  {
    if l.Cut? {
      AppendShows(l.rest, secret, rest, w);
    }
  }

  // After its pass a value is hidden, and so is all that was hidden before.
  lemma {:induction false} RefineHides(l: Layout, v: string, w: string)
    requires v != "" && (w == v || !Shows(l, w))
    ensures !Shows(Refine(l, v), w)
  {
    hide Split, Occurs, NoneShows;
    if w == v {
      PiecesHide(l.text, v);
    } else {
      PiecesAreParts(l.text, v, w);
    }
    LayoutShows(Split(l.text, v), v, w);
    if l.Cut? {
      RefineHides(l.rest, v, w);
      AppendShows(LayoutOf(Split(l.text, v), v), l.secret, Refine(l.rest, v), w);
    }
  }

  // A clear value that occurs in the redacted text occurs in some kept text.
  lemma {:induction false} RenderedShows(l: Layout, w: string)
    requires Clear(w) && Occurs(w, Rendered(l))
    ensures Shows(l, w)
  {
    if l.Cut? {
      var k :| OccursAt(w, Rendered(l), k);
      StraddlesNothing(w, l.text, Rendered(l.rest), k);
      if !Occurs(w, l.text) {
        RenderedShows(l.rest, w);
      }
    }
  }

  // ----- longest first

  lemma PrependTwice(a: string, b: string, l: Layout)
    ensures Prepend(a, Prepend(b, l)) == Prepend(a + b, l)
  {
    var t := l.text;
    assert a + (b + t) == a + b + t;
  }

  // Putting back a shorter value undoes its pass.
  lemma {:induction false} RestorePieces(pieces: seq<string>, v: string, n: nat)
    requires pieces != [] && |v| < n
    ensures Restore(LayoutOf(pieces, v), n) == Kept(Join(pieces, v))
    decreases |pieces|
  {
    if |pieces| > 1 {
      RestorePieces(pieces[1..], v, n);
    }
  }

  lemma {:induction false} RestoreAppend(pieces: seq<string>, v: string, secret: string, rest: Layout, n: nat)
    requires pieces != [] && |v| < n
    ensures Restore(Append(LayoutOf(pieces, v), secret, rest), n) == Restore(Cut(Join(pieces, v), secret, rest), n)
    decreases |pieces|
  {
    if |pieces| > 1 {
      RestoreAppend(pieces[1..], v, secret, rest, n);
      var joined := Join(pieces[1..], v);
      if |secret| >= n {
        assert pieces[0] + v + joined == Join(pieces, v);
      } else {
        PrependTwice(pieces[0] + v, joined + secret, Restore(rest, n));
        assert pieces[0] + v + (joined + secret) == Join(pieces, v) + secret;
      }
    }
  }

  lemma {:induction false} RestoreRefine(l: Layout, v: string, n: nat)
    requires v != "" && |v| < n
    ensures Restore(Refine(l, v), n) == Restore(l, n)
  {
    hide Split;
    JoinSplit(l.text, v);
    RestorePieces(Split(l.text, v), v, n);
    if l.Cut? {
      RestoreAppend(Split(l.text, v), v, l.secret, Refine(l.rest, v), n);
      RestoreRefine(l.rest, v, n);
    }
  }

  lemma {:induction false} RestoreNothing(l: Layout, n: nat)
    requires forall s :: s in Secrets(l) ==> |s| >= n
    ensures Restore(l, n) == l
  {
    if l.Cut? {
      RestoreNothing(l.rest, n);
    }
  }

  predicate ByDecreasingLength(values: seq<string>) {
    forall i, j :: 0 <= i < j < |values| ==> |values[i]| >= |values[j]|
  }

  lemma {:induction false} InsertAdds(v: string, values: seq<string>)
    ensures forall x :: x in InsertByLength(v, values) <==> x == v || x in values
  {
    if values != [] && |v| < |values[0]| {
      InsertAdds(v, values[1..]);
      assert values == [values[0]] + values[1..];
    }
  }

  lemma {:induction false} InsertKeepsOrder(v: string, values: seq<string>)
    requires ByDecreasingLength(values)
    ensures ByDecreasingLength(InsertByLength(v, values))
  {
    if values != [] && |v| < |values[0]| {
      InsertKeepsOrder(v, values[1..]);
      InsertAdds(v, values[1..]);
      forall x | x in InsertByLength(v, values[1..])
        ensures |x| <= |values[0]|
      {
      }
    }
  }

  lemma {:induction false} SortsByLength(values: seq<string>)
    ensures ByDecreasingLength(LongestFirst(values)) && Elements(LongestFirst(values)) == Elements(values)
  {
    if values != [] {
      SortsByLength(values[1..]);
      InsertKeepsOrder(values[0], LongestFirst(values[1..]));
      InsertAdds(values[0], LongestFirst(values[1..]));
      assert forall x :: x in LongestFirst(values[1..]) <==> x in Elements(LongestFirst(values[1..]));
      assert values == [values[0]] + values[1..];
    }
  }

  lemma {:induction false} UniqueKeepsValues(values: seq<string>)
    ensures Elements(Unique(values)) == Elements(values)
  {
    if values != [] {
      var front, last := values[..|values| - 1], values[|values| - 1];
      UniqueKeepsValues(front);
      ElementsAppend(front, last);
      ElementsAppend(Unique(front), last);
      assert values == front + [last];
      assert last in front <==> last in Elements(front);
    }
  }

  // ----- all passes

  function Redacted(text: string, order: seq<string>): string {
    if order == [] then text
    else
      var before, v := Redacted(text, order[..|order| - 1]), order[|order| - 1];
      if v == "" then before else Replaced(before, v)
  }

  function Order(values: seq<string>): seq<string> {
    LongestFirst(Unique(values))
  }

  // The first occurrence of a is before every occurrence of b.
  ghost predicate FirstBefore(values: seq<string>, a: string, b: string) {
    exists i :: 0 <= i < |values| && values[i] == a && b !in values[..i + 1]
  }

  // Longer values first, and values of one length as they come in the list.
  ghost predicate Precedence(values: seq<string>, a: string, b: string) {
    |a| > |b| || (|a| == |b| && FirstBefore(values, a, b))
  }

  ghost predicate InPrecedence(values: seq<string>, order: seq<string>) {
    forall i, j :: 0 <= i < j < |order| ==> Precedence(values, order[i], order[j])
  }

  lemma FirstBeforeMore(front: seq<string>, last: string, a: string, b: string)
    requires FirstBefore(front, a, b)
    ensures FirstBefore(front + [last], a, b)
  {
    var i :| 0 <= i < |front| && front[i] == a && b !in front[..i + 1];
    assert (front + [last])[..i + 1] == front[..i + 1];
  }

  lemma FirstBeforeNew(front: seq<string>, last: string, a: string)
    requires a in front && last !in front
    ensures FirstBefore(front + [last], a, last)
  {
    var i :| 0 <= i < |front| && front[i] == a;
    assert (front + [last])[..i + 1] == front[..i + 1];
    assert forall x :: x in front[..i + 1] ==> x in front;
  }

  lemma {:induction false} UniqueInOrder(values: seq<string>, i: nat, j: nat)
    requires i < j < |Unique(values)|
    ensures FirstBefore(values, Unique(values)[i], Unique(values)[j])
  {
    var front, last := values[..|values| - 1], values[|values| - 1];
    assert values == front + [last];
    UniqueKeepsValues(front);
    if j < |Unique(front)| {
      UniqueInOrder(front, i, j);
      FirstBeforeMore(front, last, Unique(values)[i], Unique(values)[j]);
    } else {
      assert Unique(values)[i] in Elements(Unique(front));
      FirstBeforeNew(front, last, Unique(values)[i]);
    }
  }

  lemma FirstBeforeShifted(v: string, values: seq<string>, a: string, b: string)
    requires b != v
    ensures FirstBefore(values, a, b) ==> FirstBefore([v] + values, a, b)
    ensures FirstBefore([v] + values, v, b)
  {
    assert ([v] + values)[..0 + 1] == [v] && ([v] + values)[0] == v;
    if i :| 0 <= i < |values| && values[i] == a && b !in values[..i + 1] {
      assert ([v] + values)[i + 1] == a && ([v] + values)[..i + 2] == [v] + values[..i + 1];
    }
  }

  lemma {:induction false} InsertStable(v: string, sorted: seq<string>, values: seq<string>)
    requires InPrecedence(values, sorted) && v !in sorted
    ensures InPrecedence([v] + values, InsertByLength(v, sorted))
    ensures forall x :: x in InsertByLength(v, sorted) <==> x == v || x in sorted
  {
    hide FirstBefore;
    forall x, y | y in sorted
      ensures FirstBefore(values, x, y) ==> FirstBefore([v] + values, x, y)
      ensures FirstBefore([v] + values, v, y)
    {
      FirstBeforeShifted(v, values, x, y);
    }
    if sorted != [] {
      assert sorted == [sorted[0]] + sorted[1..];
      if |v| < |sorted[0]| {
        InsertStable(v, sorted[1..], values);
        var rest := InsertByLength(v, sorted[1..]);
        forall j | 0 <= j < |rest|
          ensures Precedence([v] + values, sorted[0], rest[j])
        {
          assert rest[j] in rest;
          if rest[j] in sorted[1..] {
            var k :| 0 <= k < |sorted[1..]| && sorted[1..][k] == rest[j];
            assert Precedence(values, sorted[0], sorted[k + 1]);
          }
        }
      } else {
        LongestIsFirst(values, sorted);
      }
    }
  }

  lemma LongestIsFirst(values: seq<string>, sorted: seq<string>)
    requires InPrecedence(values, sorted) && sorted != []
    ensures forall x :: x in sorted ==> |x| <= |sorted[0]|
  {
    hide FirstBefore;
  }

  lemma {:induction false} SortIsStable(values: seq<string>)
    requires Distinct(values)
    ensures InPrecedence(values, LongestFirst(values))
    ensures forall x :: x in LongestFirst(values) <==> x in values
  {
    hide FirstBefore;
    if values != [] {
      assert values == [values[0]] + values[1..];
      SortIsStable(values[1..]);
      InsertStable(values[0], LongestFirst(values[1..]), values[1..]);
    }
  }

  // The order of replacement: every distinct value once, longer ones first, and values of one length in
  // the order of their first occurrence.
  lemma OrderMeans(values: seq<string>)
    ensures Elements(Order(values)) == Elements(values) && Distinct(Order(values))
    ensures InPrecedence(values, Order(values))
  {
    hide FirstBefore, Unique, LongestFirst;
    var unique := Unique(values);
    UniqueKeepsValues(values);
    forall i, j | 0 <= i < j < |unique|
      ensures FirstBefore(values, unique[i], unique[j]) && unique[i] != unique[j]
    {
      UniqueInOrder(values, i, j);
      NotBeforeItself(values, unique[i]);
    }
    SortIsStable(unique);
    forall a, b | FirstBefore(unique, a, b) && b in unique
      ensures FirstBefore(values, a, b)
    {
      Positions(unique, a, b);
    }
    var order := Order(values);
    forall i, j | 0 <= i < j < |order|
      ensures Precedence(values, order[i], order[j]) && order[i] != order[j]
    {
      assert order[j] in order && Precedence(unique, order[i], order[j]);
      if order[i] == order[j] {
        NotBeforeItself(unique, order[i]);
      }
    }
    forall x
      ensures x in order <==> x in values
    {
      assert x in order <==> x in Elements(unique);
    }
  }

  lemma NotBeforeItself(values: seq<string>, a: string)
    ensures !FirstBefore(values, a, a)
  {
    forall i | 0 <= i < |values| && values[i] == a
      ensures a in values[..i + 1]
    {
      assert values[..i + 1][i] == a;
    }
  }

  lemma Positions(values: seq<string>, a: string, b: string)
    requires FirstBefore(values, a, b) && b in values
    ensures exists i, j :: 0 <= i < j < |values| && values[i] == a && values[j] == b
  {
    var i :| 0 <= i < |values| && values[i] == a && b !in values[..i + 1];
    var j :| 0 <= j < |values| && values[j] == b;
    assert forall k :: 0 <= k <= i ==> values[k] in values[..i + 1];
  }

  method RedactText(text: string, values: seq<string>) returns (redacted: string)
    ensures redacted == Redacted(text, Order(values))
  {
    redacted := text;
    var order := LongestFirst(Unique(values));
    for i := 0 to |order|
      invariant redacted == Redacted(text, order[..i])
    {
      var value := order[i];
      assert order[..i + 1][..i] == order[..i];
      if value != "" {
        redacted := Join(Split(redacted, value), MARK);
      }
    }
    assert order[..|order|] == order;
  }

  ghost predicate AllClear(values: seq<string>) {
    forall v :: v in values && v != "" ==> Clear(v)
  }

  lemma {:induction false} PassesRefine(text: string, order: seq<string>)
    requires AllClear(order)
    ensures var l := RefineAll(Kept(text), order);
            Rendered(l) == Redacted(text, order) && Original(l) == text && Secrets(l) <= Elements(order)
  {
    hide Clear, Replaced;
    if order != [] {
      var front, v := order[..|order| - 1], order[|order| - 1];
      PassesRefine(text, front);
      ElementsPrefix(order, |order| - 1);
      assert order[..|order|] == order;
      if v != "" {
        RefineIsPass(RefineAll(Kept(text), front), v);
      }
    }
  }

  lemma {:induction false} PassesHide(text: string, order: seq<string>, w: string)
    requires w != "" && w in order
    ensures !Shows(RefineAll(Kept(text), order), w)
  {
    hide Refine, Shows;
    var front, v := order[..|order| - 1], order[|order| - 1];
    assert order == front + [v];
    if w in front {
      PassesHide(text, front, w);
    }
    if v != "" {
      RefineHides(RefineAll(Kept(text), front), v, w);
    }
  }

  // With the shorter values put back, a value still does not show: it was hidden whole.
  lemma {:induction false} PassesHideWhole(text: string, order: seq<string>, w: string)
    requires w != "" && w in order && ByDecreasingLength(order) && AllClear(order)
    ensures !Shows(Restore(RefineAll(Kept(text), order), |w|), w)
  {
    hide Refine, Shows, Restore, Clear;
    var front, v := order[..|order| - 1], order[|order| - 1];
    assert order == front + [v];
    var l := RefineAll(Kept(text), order);
    if |v| >= |w| {
      PassesRefine(text, order);
      assert forall s :: s in Secrets(l) ==> s in order && |s| >= |w|;
      RestoreNothing(l, |w|);
      PassesHide(text, order, w);
    } else {
      assert w in front;
      PassesHideWhole(text, front, w);
      if v != "" {
        RestoreRefine(RefineAll(Kept(text), front), v, |w|);
      }
    }
  }

  // Redaction is complete: when no value can straddle the mark, the redacted text is the original
  // one with occurrences of values cut out, and it contains no value, even once the shorter values
  // are put back.
  lemma RedactionIsComplete(text: string, values: seq<string>) returns (l: Layout)
    requires AllClear(values)
    ensures Original(l) == text && Rendered(l) == Redacted(text, Order(values)) && Secrets(l) <= Elements(values)
    ensures forall v :: v in values && v != "" ==> !Occurs(v, Redacted(text, Order(values))) && !Shows(Restore(l, |v|), v)
  {
    hide Clear, Occurs, Shows, Restore, RefineAll, Redacted;
    var order := Order(values);
    UniqueKeepsValues(values);
    SortsByLength(Unique(values));
    assert forall v :: v in order <==> v in Elements(values);
    l := RefineAll(Kept(text), order);
    PassesRefine(text, order);
    forall v | v in values && v != ""
      ensures !Occurs(v, Rendered(l)) && !Shows(Restore(l, |v|), v)
    {
      assert v in Elements(values);
      PassesHide(text, order, v);
      PassesHideWhole(text, order, v);
      if Occurs(v, Rendered(l)) {
        RenderedShows(l, v);
        assert false;
      }
    }
  }

  lemma NoSharedCharactersIsClear(values: seq<string>)
    requires forall v, c :: v in values && c in v ==> c !in MARK
    ensures AllClear(values)
  {
    forall v | v in values && v != ""
      ensures Clear(v)
    {
      NoSharedCharacterIsClear(v);
    }
  }

  // ----- exactly the single values that can leak

  // The value is not found in the text before position n.
  ghost predicate NoneBefore(w: string, text: string, n: int) {
    forall j :: 0 <= j < n ==> !OccursAt(w, text, j)
  }

  // The value can come back around a mark: it starts inside the mark, or before it at a place that
  // the search from the left does not destroy.
  ghost predicate Reappears(w: string, k: int) {
    && -|w| < k < |MARK| && Matches(w, k)
    && (k < 0 ==> NoneBefore(w, w[..-k] + w, -k))
  }

  ghost predicate CanLeak(w: string) {
    exists k :: Reappears(w, k)
  }

  lemma OccursLater(w: string, c: char, text: string, j: int)
    requires j > 0
    ensures OccursAt(w, [c] + text, j) <==> OccursAt(w, text, j - 1)
  {
    if 0 < j <= |text| + 1 - |w| {
      assert ([c] + text)[j..j + |w|] == text[j - 1..j - 1 + |w|];
    }
  }

  lemma NoneBeforeLater(w: string, c: char, text: string, n: int)
    ensures NoneBefore(w, text, n) && !(w <= [c] + text) ==> NoneBefore(w, [c] + text, n + 1)
    ensures NoneBefore(w, [c] + text, n + 1) ==> NoneBefore(w, text, n)
  {
    hide OccursAt;
    assert !(w <= [c] + text) ==> !OccursAt(w, [c] + text, 0) by {
      NotFirst(w, [c] + text);
    }
    forall j | j > 0
      ensures OccursAt(w, [c] + text, j) <==> OccursAt(w, text, j - 1)
    {
      OccursLater(w, c, text, j);
    }
    if NoneBefore(w, [c] + text, n + 1) {
      forall j | 0 <= j < n
        ensures !OccursAt(w, text, j)
      {
        assert OccursAt(w, [c] + text, j + 1) <==> OccursAt(w, text, j);
      }
    }
  }

  lemma NotFirst(w: string, t: string)
    ensures OccursAt(w, t, 0) <==> w <= t
  {
  }

  // The first piece of a split ends where the value is found first.
  ghost predicate SplitsAt(t: string, w: string, p: string)
    requires w != ""
  {
    && p + w <= t && NoneBefore(w, p + w, |p|)
    && Split(t, w) == [p] + Split(t[|p| + |w|..], w)
  }

  lemma {:induction false} FirstPiece(t: string, w: string)
    requires w != "" && |Split(t, w)| > 1
    ensures SplitsAt(t, w, Split(t, w)[0])
    decreases |t|
  {
    if w <= t {
      assert "" + w == w;
    } else {
      FirstPiece(t[1..], w);
      var q := Split(t[1..], w)[0];
      LaterPiece(t, w, q, [t[0]] + q);
    }
  }

  lemma SplitLater(t: string, w: string)
    requires w != "" && |t| >= |w| && !(w <= t)
    ensures var r := Split(t[1..], w); Split(t, w) == [[t[0]] + r[0]] + r[1..]
  {
  }

  lemma PrefixLater(t: string, q: string, w: string)
    requires t != "" && q + w <= t[1..]
    ensures ([t[0]] + q) + w <= t && [t[0]] + (q + w) <= t
    ensures t[1..][|q| + |w|..] == t[|q| + 1 + |w|..]
  {
    assert t == [t[0]] + t[1..];
    assert ([t[0]] + q) + w == [t[0]] + (q + w);
  }

  // What the first piece q of the rest becomes when a character before it starts no occurrence.
  ghost predicate Later(t: string, w: string, q: string, p: string) {
    w != "" && |t| >= |w| && !(w <= t) && SplitsAt(t[1..], w, q) && p == [t[0]] + q && |p| == |q| + 1
  }

  lemma LaterPieces(t: string, w: string, q: string, p: string)
    requires Later(t, w, q, p)
    ensures Split(t, w) == [p] + Split(t[|p| + |w|..], w)
  {
    hide Split, NoneBefore;
    SplitLater(t, w);
    var rest := Split(t[1..][|q| + |w|..], w);
    assert ([q] + rest)[0] == q && ([q] + rest)[1..] == rest;
    assert t[1..][|q| + |w|..] == t[|p| + |w|..];
  }

  lemma LaterPrefix(t: string, w: string, q: string, p: string)
    requires Later(t, w, q, p)
    ensures p + w <= t
  {
    hide Split, NoneBefore;
    PrefixLater(t, q, w);
  }

  lemma LaterNone(t: string, w: string, q: string, p: string)
    requires Later(t, w, q, p)
    ensures NoneBefore(w, p + w, |p|)
  {
    hide OccursAt, NoneBefore, Split;
    PrefixLater(t, q, w);
    NotPrefix(w, t, [t[0]] + (q + w));
    NoneBeforeLater(w, t[0], q + w, |q|);
    assert p + w == [t[0]] + (q + w);
  }

  lemma SplitsAtIs(t: string, w: string, p: string)
    requires w != "" && p + w <= t && NoneBefore(w, p + w, |p|)
    requires Split(t, w) == [p] + Split(t[|p| + |w|..], w)
    ensures SplitsAt(t, w, p) && Split(t, w)[0] == p
  {
    hide NoneBefore, Split;
  }

  lemma LaterPiece(t: string, w: string, q: string, p: string)
    requires Later(t, w, q, p)
    ensures SplitsAt(t, w, p) && Split(t, w)[0] == p
  {
    assert w != "";
    hide NoneBefore, Split, SplitsAt, Later;
    LaterPrefix(t, w, q, p);
    LaterPieces(t, w, q, p);
    LaterNone(t, w, q, p);
    SplitsAtIs(t, w, p);
  }

  lemma NotPrefix(w: string, t: string, u: string)
    requires u <= t && !(w <= t)
    ensures !(w <= u)
  {
  }

  lemma ReplacedSplits(t: string, w: string, p: string)
    requires w != "" && SplitsAt(t, w, p)
    ensures Replaced(t, w) == p + MARK + Replaced(t[|p| + |w|..], w)
  {
    hide NoneBefore;
    var rest := Split(t[|p| + |w|..], w);
    assert ([p] + rest)[1..] == rest;
  }

  // What a placement over a mark covers before the mark.
  lemma OverlapStarts(w: string, p: string, q: string, k: int)
    requires OccursAt(w, p + MARK + q, k) && k < |p| < k + |w|
    ensures p == p[..k] + w[..|p| - k]
  {
    forall i | k <= i < |p|
      ensures p[i] == w[i - k]
    {
      assert (p + MARK + q)[k..k + |w|][i - k] == (p + MARK + q)[i] == p[i];
    }
  }

  // A placement over a mark, cut down to the text right before the mark.
  lemma PlacedOverMark(w: string, p: string, q: string, k: int)
    requires OccursAt(w, p + MARK + q, k) && |p| - |w| < k < |p| + |MARK|
    requires NoneBefore(w, p + w, |p|)
    ensures Reappears(w, k - |p|)
  {
    hide NoneBefore;
    var t, m := p + MARK + q, k - |p|;
    forall i | 0 <= i < |w| && 0 <= m + i < |MARK|
      ensures w[i] == MARK[m + i]
    {
      assert t[k..k + |w|][i] == t[k + i];
    }
    if m < 0 {
      OverlapStarts(w, p, q, k);
      NoneInSuffix(w, p[..k], w[..-m]);
    }
  }

  lemma {:induction false} NoneInSuffix(w: string, a: string, b: string)
    requires NoneBefore(w, (a + b) + w, |a| + |b|)
    ensures NoneBefore(w, b + w, |b|)
    decreases |a|
  {
    hide NoneBefore;
    if a == "" {
      assert a + b == b;
    } else {
      assert (a + b) + w == [a[0]] + ((a[1..] + b) + w);
      NoneBeforeLater(w, a[0], (a[1..] + b) + w, |a[1..]| + |b|);
      NoneInSuffix(w, a[1..], b);
    }
  }

  lemma PlacedBeforeMark(w: string, p: string, q: string, k: int)
    requires OccursAt(w, p + MARK + q, k) && k + |w| <= |p|
    ensures Occurs(w, p)
  {
    assert p[k..k + |w|] == (p + MARK + q)[k..k + |w|];
    assert OccursAt(w, p, k);
  }

  lemma PlacedAfterMark(w: string, p: string, q: string, k: int)
    requires OccursAt(w, p + MARK + q, k) && k >= |p| + |MARK|
    ensures Occurs(w, q)
  {
    var j := k - |p| - |MARK|;
    assert q[j..j + |w|] == (p + MARK + q)[k..k + |w|];
    assert OccursAt(w, q, j);
  }

  lemma OnePiece(t: string, w: string)
    requires w != "" && |Split(t, w)| == 1
    ensures !Occurs(w, Replaced(t, w))
  {
    PiecesHide(t, w);
    assert NoneShows(Split(t, w), w);
  }

  // A value found in a redacted text reappears around a mark.
  lemma {:induction false} LeakReappears(t: string, w: string)
    requires w != "" && Occurs(w, Replaced(t, w))
    ensures CanLeak(w)
    decreases |t|
  {
    hide Split, Replaced, NoneBefore, OccursAt, Reappears, NoneShows;
    if |Split(t, w)| == 1 {
      OnePiece(t, w);
    } else {
      FirstPiece(t, w);
      PiecesHide(t, w);
      var p := Split(t, w)[0];
      var rest := t[|p| + |w|..];
      ReplacedSplits(t, w, p);
      var q := Replaced(rest, w);
      var k :| OccursAt(w, p + MARK + q, k);
      if k + |w| <= |p| {
        PlacedBeforeMark(w, p, q, k);
        FirstHidden(Split(t, w), w);
      } else if k >= |p| + |MARK| {
        PlacedAfterMark(w, p, q, k);
        LeakReappears(rest, w);
      } else {
        PlacedOverMark(w, p, q, k);
      }
    }
  }

  lemma FirstHidden(pieces: seq<string>, w: string)
    requires NoneShows(pieces, w) && pieces != []
    ensures !Occurs(w, pieces[0])
  {
  }

  // A value that reappears around a mark is found in the redaction of this text.
  lemma ReappearanceLeaks(w: string, k: int) returns (t: string)
    requires w != "" && Reappears(w, k)
    ensures Occurs(w, Replaced(t, w))
  {
    hide Replaced, Occurs;
    var p := if k < 0 then w[..-k] else "";
    var q := if k + |w| > |MARK| then w[|MARK| - k..] else "";
    t := p + w + q;
    ReplacedFirst(p, w, q);
    ReplacedStep(q, w);
    PlacedBack(w, k, p, q);
  }

  lemma PlacedBack(w: string, k: int, p: string, q: string)
    requires -|w| < k < |MARK| && Matches(w, k)
    requires p == (if k < 0 then w[..-k] else "") && q == (if k + |w| > |MARK| then w[|MARK| - k..] else "")
    ensures Occurs(w, p + MARK + q)
  {
    var r, at := p + MARK + q, |p| + k;
    forall i | 0 <= i < |w|
      ensures at + i < |r| && r[at + i] == w[i]
    {
      if k + i < 0 {
        assert r[at + i] == p[i];
      } else if k + i < |MARK| {
        assert r[at + i] == MARK[k + i];
      } else {
        assert r[at + i] == q[k + i - |MARK|];
      }
    }
    assert r[at..at + |w|] == w;
    assert OccursAt(w, r, at);
  }

  lemma {:induction false} ReplacedFirst(p: string, w: string, q: string)
    requires w != "" && NoneBefore(w, p + w, |p|)
    ensures Replaced(p + w + q, w) == p + MARK + Replaced(q, w)
    decreases |p|
  {
    hide Replaced, NoneBefore, OccursAt;
    var t := p + w + q;
    ReplacedStep(t, w);
    if p == "" {
      assert t[|w|..] == q;
    } else {
      assert !(w <= t) by {
        NotYet(p, w, q);
      }
      assert p + w == [p[0]] + (p[1..] + w);
      NoneBeforeLater(w, p[0], p[1..] + w, |p| - 1);
      ReplacedFirst(p[1..], w, q);
      assert t[1..] == p[1..] + w + q;
      assert p + MARK + Replaced(q, w) == [p[0]] + (p[1..] + MARK + Replaced(q, w));
    }
  }

  lemma NotYet(p: string, w: string, q: string)
    requires p != "" && NoneBefore(w, p + w, |p|)
    ensures !(w <= p + w + q)
  {
    assert !OccursAt(w, p + w, 0);
    assert (p + w + q)[..|w|] == (p + w)[..|w|];
  }

  lemma SingleOrder(w: string)
    ensures Order([w]) == [w]
  {
    assert [w][..0] == [] && [w][1..] == [];
    assert Unique([w]) == Unique([]) + [w] == [w];
    assert LongestFirst([w]) == InsertByLength(w, LongestFirst([])) == [w] + [];
  }

  // A single value is found in some redacted text exactly when it can reappear around a mark.
  lemma SingleValueLeaksIff(w: string)
    requires w != ""
    ensures (exists t :: Occurs(w, Redacted(t, Order([w])))) <==> CanLeak(w)
  {
    hide Occurs, Replaced, Reappears;
    SingleOrder(w);
    forall t
      ensures Redacted(t, [w]) == Replaced(t, w)
    {
      assert [w][..0] == [];
    }
    if t :| Occurs(w, Redacted(t, Order([w]))) {
      LeakReappears(t, w);
    }
    if k :| Reappears(w, k) {
      var t := ReappearanceLeaks(w, k);
      assert Occurs(w, Redacted(t, Order([w])));
    }
  }

  // Not every value that can straddle a mark can leak.
  lemma StraddlingIsNotLeaking()
    ensures !Clear("[[[") && !CanLeak("[[[")
  {
    var w := "[[[";
    assert Matches(w, -2);
    forall k | -|w| < k < |MARK|
      ensures !Reappears(w, k)
    {
      if k == -2 {
        assert OccursAt(w, w[..2] + w, 0);
      } else if k == -1 {
        assert !Matches(w, k) by {
          assert w[2] != MARK[1];
        }
      } else if k == 0 {
        assert w[1] != MARK[1];
      } else {
        assert w[0] != MARK[k];
      }
    }
  }

  // A value that shares characters with the mark can reappear behind it.
  lemma MarkCanLeak()
    ensures Redacted("D]aa", Order(["D]a"])) == "[REDACTED]a"
    ensures Occurs("D]a", Redacted("D]aa", Order(["D]a"])))
  {
    assert OccursAt("D]a", "[REDACTED]a", 8);
  }
}
