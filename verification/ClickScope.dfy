/** `_ClickScopeParser` (scripts/check_portal_edl.py): a stack over the HTML event stream that finds
    `@click` elements outside every `x-data` scope, against what scope means in the element tree.
    Void elements are those of section 13.1.2 of the HTML Living Standard (plus `param`). */
module ClickScope {
  import opened Sequences

  /** What the checker reads off a start tag: its name, and its attribute names in order. */
  datatype Tag = Tag(name: string, attributes: seq<string>, line: int)

  datatype Event = Start(tag: Tag) | End | SelfClosed(tag: Tag)

  datatype Violation = Violation(line: int, name: string, key: string)

  const VOID := {"area", "base", "br", "col", "embed", "hr", "img", "input",
                 "link", "meta", "param", "source", "track", "wbr"}

  function LowerChar(c: char): char
  {
    if 'A' <= c <= 'Z' then (c as int + 32) as char else c
  }

  function Lower(s: string): (r: string)
    ensures |r| == |s|
  {
    seq(|s|, i requires 0 <= i < |s| => LowerChar(s[i]))
  }

  predicate IsVoid(t: Tag) { Lower(t.name) in VOID }

  predicate HasXData(t: Tag) { "x-data" in t.attributes }

  predicate IsClickKey(k: string)
  {
    k == "@click" || k == "x-on:click" || "@click." <= k || "x-on:click" <= k
  }

  function ClickKeys(keys: seq<string>): seq<string>
  {
    if keys == [] then []
    else ClickKeys(keys[..|keys| - 1]) + (if IsClickKey(keys[|keys| - 1]) then [keys[|keys| - 1]] else [])
  }

  // ---------------------------------------------------------------- the automaton

  datatype State = State(stack: seq<bool>, violations: seq<Violation>)

  function Top(stack: seq<bool>): bool { stack != [] && stack[|stack| - 1] }

  function Reported(t: Tag, inScope: bool): seq<Violation>
  {
    var keys := ClickKeys(t.attributes);
    if keys != [] && !inScope then [Violation(t.line, t.name, keys[0])] else []
  }

  function HandleStart(s: State, t: Tag): State
  {
    var inScope := HasXData(t) || Top(s.stack);
    State(if IsVoid(t) then s.stack else s.stack + [inScope], s.violations + Reported(t, inScope))
  }

  function Step(s: State, e: Event): State
  {
    match e
    case Start(t) => HandleStart(s, t)
    case SelfClosed(t) => HandleStart(s, t)
    case End => if s.stack != [] then s.(stack := s.stack[..|s.stack| - 1]) else s
  }

  function Feed(s: State, events: seq<Event>): State
  {
    if events == [] then s else Step(Feed(s, events[..|events| - 1]), events[|events| - 1])
  }

  // ---------------------------------------------------------------- one start tag, in names

  const UPPER := "ABCDEFGHIJKLMNOPQRSTUVWXYZ"

  const LOWER := "abcdefghijklmnopqrstuvwxyz"

  lemma LettersAre(k: nat)
    requires k < |UPPER|
    ensures UPPER[k] as int == 65 + k && LOWER[k] as int == 97 + k
  {
  }

  /** Letters are lowered one for one, and nothing else is touched. */
  lemma LowerIs(s: string, i: nat, k: nat)
    requires i < |s| && k < |UPPER|
    ensures s[i] == UPPER[k] ==> Lower(s)[i] == LOWER[k]
    ensures s[i] !in UPPER ==> Lower(s)[i] == s[i]
  {
    LettersAre(k);
    if 'A' <= s[i] <= 'Z' {
      LettersAre(s[i] as int - 65);
      assert UPPER[s[i] as int - 65] == s[i];
    }
  }

  /** The elements that have no end tag, in any case. */
  predicate NamesAVoidElement(name: string)
  {
    || name == "area" || name == "base" || name == "br" || name == "col" || name == "embed" || name == "hr" || name == "img"
    || name == "input" || name == "link" || name == "meta" || name == "param" || name == "source" || name == "track"
    || name == "wbr"
  }

  /** `@click`, with modifiers or without, or `x-on:click` with anything after it. */
  predicate NamesAClick(k: string)
  {
    || k == "@click"
    || (|k| >= 7 && k[..7] == "@click.")
    || (|k| >= 10 && k[..10] == "x-on:click")
  }

  lemma {:induction false} ClickKeysAre(keys: seq<string>)
    ensures forall k :: k in ClickKeys(keys) <==> k in keys && NamesAClick(k)
    ensures ClickKeys(keys) != [] ==>
              exists i :: 0 <= i < |keys| && keys[i] == ClickKeys(keys)[0] && forall j :: 0 <= j < i ==> !NamesAClick(keys[j])
    decreases |keys|
  {
    if keys != [] {
      var n := |keys| - 1;
      ClickKeysAre(keys[..n]);
      assert keys == keys[..n] + [keys[n]];
      if ClickKeys(keys[..n]) == [] && NamesAClick(keys[n]) {
        assert keys[n] == ClickKeys(keys)[0];
        assert forall j :: 0 <= j < n ==> keys[..n][j] == keys[j];
      } else if ClickKeys(keys) != [] {
        var i :| 0 <= i < n && keys[..n][i] == ClickKeys(keys[..n])[0] && forall j :: 0 <= j < i ==> !NamesAClick(keys[..n][j]);
        assert keys[i] == ClickKeys(keys)[0] && forall j :: 0 <= j < i ==> keys[..n][j] == keys[j];
      }
    }
  }

  /** The tag is reported, once and under its first click attribute, exactly when it has one, carries no
      `x-data` and the entry on top of the stack is not true; it pushes unless it is void. */
  lemma StartTagIs(s: State, t: Tag)
    ensures var (s', scope) := (HandleStart(s, t), "x-data" in t.attributes || (s.stack != [] && s.stack[|s.stack| - 1]));
            && (s'.stack == if NamesAVoidElement(Lower(t.name)) then s.stack else s.stack + [scope])
            && ((exists k :: k in t.attributes && NamesAClick(k)) && !scope ==>
                  exists i :: 0 <= i < |t.attributes| && NamesAClick(t.attributes[i])
                              && (forall j :: 0 <= j < i ==> !NamesAClick(t.attributes[j]))
                              && s'.violations == s.violations + [Violation(t.line, t.name, t.attributes[i])])
            && (scope || (forall k :: k in t.attributes ==> !NamesAClick(k)) ==> s'.violations == s.violations)
  {
    ClickKeysAre(t.attributes);
    var keys := ClickKeys(t.attributes);
    if keys == [] {
      assert s.violations + [] == s.violations;
    } else {
      assert keys[0] in keys;
    }
  }

  class ClickScopeParser {
    var stack: seq<bool>
    var violations: seq<Violation>

    function Snapshot(): State
      reads this
    {
      State(stack, violations)
    }

    constructor ()
      ensures Snapshot() == State([], [])
    {
      stack, violations := [], [];
    }

    method HandleStartTag(t: Tag)
      modifies this
      ensures Snapshot() == HandleStart(old(Snapshot()), t)
    {
      var hasXData := "x-data" in t.attributes;
      var inScope := hasXData || (if stack != [] then stack[|stack| - 1] else false);
      var keys := ClickKeys(t.attributes);
      if keys != [] && !inScope && !hasXData {
        violations := violations + [Violation(t.line, t.name, keys[0])];
      }
      if !IsVoid(t) {
        stack := stack + [hasXData || inScope];
      }
    }

    method HandleEndTag()
      modifies this
      ensures Snapshot() == Step(old(Snapshot()), End)
    {
      if stack != [] {
        stack := stack[..|stack| - 1];
      }
    }

    method FeedAll(events: seq<Event>)
      modifies this
      ensures Snapshot() == Feed(old(Snapshot()), events)
    {
      ghost var start := Snapshot();
      for i := 0 to |events|
        invariant Snapshot() == Feed(start, events[..i])
      {
        assert events[..i + 1][..i] == events[..i];
        match events[i] {
          case Start(t) => HandleStartTag(t);
          case SelfClosed(t) => HandleStartTag(t);
          case End => HandleEndTag();
        }
      }
      assert events[..|events|] == events;
    }
  }

  // ---------------------------------------------------------------- documents

  /** `Leaf` is an element without an end tag: a void one, or one written self-closed. */
  datatype Node = Element(tag: Tag, children: Forest) | Leaf(tag: Tag, selfClosed: bool)
  datatype Forest = Nil | Cons(head: Node, tail: Forest)

  /** Elements with an end tag are not void; an unclosed leaf is. */
  predicate WellFormed(f: Forest)
  {
    f.Cons? ==>
      && (if f.head.Element? then !IsVoid(f.head.tag) && WellFormed(f.head.children) else f.head.selfClosed || IsVoid(f.head.tag))
      && WellFormed(f.tail)
  }

  function Opening(n: Node): Event
  {
    if n.Leaf? && n.selfClosed then SelfClosed(n.tag) else Start(n.tag)
  }

  function Events(f: Forest): seq<Event>
  {
    if f.Nil? then []
    else [Opening(f.head)] + (if f.head.Element? then Events(f.head.children) + [End] else []) + Events(f.tail)
  }

  /** The click elements with no `x-data` on themselves or an ancestor, in document order. */
  function Unscoped(f: Forest, inScope: bool): seq<Violation>
  {
    if f.Nil? then []
    else
      var own := inScope || HasXData(f.head.tag);
      Reported(f.head.tag, own) + (if f.head.Element? then Unscoped(f.head.children, own) else []) + Unscoped(f.tail, inScope)
  }

  lemma {:induction false} FeedAppends(s: State, a: seq<Event>, b: seq<Event>)
    ensures Feed(s, a + b) == Feed(Feed(s, a), b)
    decreases |b|
  {
    if b == [] {
      assert a + b == a;
    } else {
      assert (a + b)[..|a + b| - 1] == a + b[..|b| - 1];
      FeedAppends(s, a, b[..|b| - 1]);
    }
  }

  lemma FeedOne(s: State, e: Event)
    ensures Feed(s, [e]) == Step(s, e)
  {
    assert [e][..0] == [];
  }

  /** The state after the first node of a forest. */
  function AfterNode(s: State, n: Node): State
  {
    var s1 := HandleStart(s, n.tag);
    if n.Element? then Step(Feed(s1, Events(n.children)), End) else s1
  }

  lemma FeedNode(s: State, f: Forest)
    requires f.Cons?
    ensures Feed(s, Events(f)) == Feed(AfterNode(s, f.head), Events(f.tail))
  {
    var opening := [Opening(f.head)];
    FeedOne(s, Opening(f.head));
    if f.head.Element? {
      var inner := Events(f.head.children);
      FeedOne(Feed(HandleStart(s, f.head.tag), inner), End);
      FeedAppends(HandleStart(s, f.head.tag), inner, [End]);
      FeedAppends(s, opening, inner + [End]);
      FeedAppends(s, opening + (inner + [End]), Events(f.tail));
    } else {
      assert Events(f) == opening + Events(f.tail);
      FeedAppends(s, opening, Events(f.tail));
    }
  }

  // ---------------------------------------------------------------- what the automaton does to a forest

  /** The entries a forest leaves on a stack whose top says `top`: a self-closed element leaves its
      own, and an element whose content leaves some has its end tag pop the last of them instead. */
  function Leftover(f: Forest, top: bool): seq<bool>
    decreases f
  {
    if f.Nil? then []
    else
      var own := LeftByNode(f.head, top);
      own + Leftover(f.tail, TopOver(own, top))
  }

  function LeftByNode(n: Node, top: bool): seq<bool>
    decreases n
  {
    var own := top || HasXData(n.tag);
    match n
    case Leaf(t, _) => if IsVoid(t) then [] else [own]
    case Element(_, children) =>
      var inner := Leftover(children, own);
      ([own] + inner)[..|inner|]
  }

  function TopOver(entries: seq<bool>, top: bool): bool { if entries == [] then top else Top(entries) }

  /** What the checker reports of a forest it meets with `top` on the stack. */
  function Seen(f: Forest, top: bool): seq<Violation>
    decreases f
  {
    if f.Nil? then []
    else
      var own := top || HasXData(f.head.tag);
      Reported(f.head.tag, own) + (if f.head.Element? then Seen(f.head.children, own) else []) +
      Seen(f.tail, TopOver(LeftByNode(f.head, top), top))
  }

  /** No click element outside every `x-data` scope is met with a true entry on top. */
  predicate NoneHidden(f: Forest, inScope: bool, top: bool)
    decreases f
  {
    f.Cons? ==>
      var own := inScope || HasXData(f.head.tag);
      && (Reported(f.head.tag, own) != [] ==> !top)
      && (f.head.Element? ==> NoneHidden(f.head.children, own, top || HasXData(f.head.tag)))
      && NoneHidden(f.tail, inScope, TopOver(LeftByNode(f.head, top), top))
  }

  lemma TopOverConcat(stack: seq<bool>, entries: seq<bool>)
    ensures Top(stack + entries) == TopOver(entries, Top(stack))
  {
    if entries != [] {
      assert (stack + entries)[|stack + entries| - 1] == entries[|entries| - 1];
    }
  }

  lemma PopOver(stack: seq<bool>, own: bool, inner: seq<bool>)
    ensures var grown := stack + [own] + inner; grown[..|grown| - 1] == stack + ([own] + inner)[..|inner|]
  {
  }

  /** The state after a node, given what its children do. */
  lemma NodeLeaves(s: State, n: Node)
    requires n.Element? ==> !IsVoid(n.tag)
    requires n.Element? ==>
               var s1 := HandleStart(s, n.tag);
               Feed(s1, Events(n.children)) ==
               State(s1.stack + Leftover(n.children, Top(s1.stack)), s1.violations + Seen(n.children, Top(s1.stack)))
    ensures var own := Top(s.stack) || HasXData(n.tag);
            AfterNode(s, n) ==
            State(s.stack + LeftByNode(n, Top(s.stack)),
                  s.violations + (Reported(n.tag, own) + (if n.Element? then Seen(n.children, own) else [])))
  {
    var own := Top(s.stack) || HasXData(n.tag);
    if n.Element? {
      PopOver(s.stack, own, Leftover(n.children, own));
      ConcatAssociates(s.violations, Reported(n.tag, own), Seen(n.children, own));
    } else {
      assert Reported(n.tag, own) + [] == Reported(n.tag, own);
      assert s.stack + [] == s.stack;
    }
  }

  /** The checker, on any forest and any stack: exactly what it reports and exactly what it leaves. */
  lemma {:induction false} FeedLeaves(s: State, f: Forest)
    requires WellFormed(f)
    ensures Feed(s, Events(f)) == State(s.stack + Leftover(f, Top(s.stack)), s.violations + Seen(f, Top(s.stack)))
    decreases f
  {
    if f.Nil? {
      assert s.stack + [] == s.stack && s.violations + [] == s.violations;
    } else {
      if f.head.Element? {
        FeedLeaves(HandleStart(s, f.head.tag), f.head.children);
      }
      NodeLeaves(s, f.head);
      FeedNode(s, f);
      FeedLeaves(AfterNode(s, f.head), f.tail);
      TailLeaves(s, f);
    }
  }

  lemma TailLeaves(s: State, f: Forest)
    requires f.Cons?
    requires var own := Top(s.stack) || HasXData(f.head.tag);
             AfterNode(s, f.head) ==
             State(s.stack + LeftByNode(f.head, Top(s.stack)),
                   s.violations + (Reported(f.head.tag, own) + (if f.head.Element? then Seen(f.head.children, own) else [])))
    ensures var s2 := AfterNode(s, f.head);
            State(s2.stack + Leftover(f.tail, Top(s2.stack)), s2.violations + Seen(f.tail, Top(s2.stack))) ==
            State(s.stack + Leftover(f, Top(s.stack)), s.violations + Seen(f, Top(s.stack)))
  {
    var (top, left) := (Top(s.stack), LeftByNode(f.head, Top(s.stack)));
    var own := top || HasXData(f.head.tag);
    var here := Reported(f.head.tag, own) + (if f.head.Element? then Seen(f.head.children, own) else []);
    TopOverConcat(s.stack, left);
    ConcatAssociates(s.stack, left, Leftover(f.tail, TopOver(left, top)));
    ConcatAssociates(s.violations, here, Seen(f.tail, TopOver(left, top)));
  }

  /** Inside a scope nothing is reported and only true entries are left. */
  lemma {:induction false} RiseInside(f: Forest)
    ensures Seen(f, true) == []
    ensures forall i :: 0 <= i < |Leftover(f, true)| ==> Leftover(f, true)[i]
    decreases f
  {
    if f.Cons? {
      RiseNode(f.head);
      if f.head.Element? {
        RiseInside(f.head.children);
      }
      RiseInside(f.tail);
    }
  }

  lemma {:induction false} RiseNode(n: Node)
    ensures forall i :: 0 <= i < |LeftByNode(n, true)| ==> LeftByNode(n, true)[i]
    ensures TopOver(LeftByNode(n, true), true)
    decreases n
  {
    if n.Element? {
      RiseInside(n.children);
    }
  }

  /** What is seen is what is really out of scope, less what is hidden. */
  lemma {:induction false} SeenIff(f: Forest, inScope: bool, top: bool)
    requires inScope ==> top
    ensures |Seen(f, top)| <= |Unscoped(f, inScope)|
    ensures |Seen(f, top)| == |Unscoped(f, inScope)| <==> NoneHidden(f, inScope, top)
    ensures NoneHidden(f, inScope, top) ==> Seen(f, top) == Unscoped(f, inScope)
    decreases f
  {
    if f.Cons? {
      var own := inScope || HasXData(f.head.tag);
      if f.head.Element? {
        SeenIff(f.head.children, own, top || HasXData(f.head.tag));
      }
      if inScope {
        RiseNode(f.head);
      }
      SeenIff(f.tail, inScope, TopOver(LeftByNode(f.head, top), top));
    }
  }

  /** On any document the report is the tree's exactly when no click element that is out of scope is
      met with a leftover true entry on top. */
  lemma ReportIsExactIff(f: Forest)
    requires WellFormed(f)
    ensures Feed(State([], []), Events(f)).violations == Unscoped(f, false) <==> NoneHidden(f, false, false)
  {
    FeedLeaves(State([], []), f);
    SeenIff(f, false, false);
    assert [] + Seen(f, false) == Seen(f, false);
  }

  // ---------------------------------------------------------------- documents without a leak in a scope

  /** Self-closed elements that are not void push an entry nothing pops. This forest leaks none that
      is inside a scope: no such element carries `x-data` or has an ancestor that does. */
  predicate NoScopedLeak(f: Forest, inScope: bool)
  {
    f.Cons? ==>
      var own := inScope || HasXData(f.head.tag);
      && (if f.head.Element? then NoScopedLeak(f.head.children, own) else IsVoid(f.head.tag) || !own)
      && NoScopedLeak(f.tail, inScope)
  }

  ghost predicate AllFalse(stack: seq<bool>) { forall i :: 0 <= i < |stack| ==> !stack[i] }

  lemma {:induction false} NoLeakInScope(f: Forest)
    requires NoScopedLeak(f, true)
    ensures Leftover(f, true) == [] && NoneHidden(f, true, true)
    decreases f
  {
    if f.Cons? {
      if f.head.Element? {
        NoLeakInScope(f.head.children);
      }
      NoLeakInScope(f.tail);
    }
  }

  lemma {:induction false} NoScopedLeakHidesNothing(f: Forest)
    requires NoScopedLeak(f, false)
    ensures NoneHidden(f, false, false) && AllFalse(Leftover(f, false))
    decreases f
  {
    if f.Cons? {
      if f.head.Element? {
        if HasXData(f.head.tag) {
          NoLeakInScope(f.head.children);
        } else {
          NoScopedLeakHidesNothing(f.head.children);
        }
      }
      NoScopedLeakHidesNothing(f.tail);
    }
  }

  /** With no self-closed element in a scope - in particular on well-nested HTML, where only void
      elements are self-closed - the checker reports exactly the click elements with no `x-data` on
      themselves or an ancestor, in document order. */
  lemma ReportIsExact(f: Forest)
    requires WellFormed(f) && NoScopedLeak(f, false)
    ensures Feed(State([], []), Events(f)).violations == Unscoped(f, false)
  {
    NoScopedLeakHidesNothing(f);
    ReportIsExactIff(f);
  }

  /** Only void elements are self-closed. */
  predicate NoLeak(f: Forest)
  {
    f.Cons? ==> (if f.head.Element? then NoLeak(f.head.children) else IsVoid(f.head.tag)) && NoLeak(f.tail)
  }

  lemma {:induction false} WellNestedHasNoScopedLeak(f: Forest, inScope: bool)
    requires NoLeak(f)
    ensures NoScopedLeak(f, inScope)
  {
    if f.Cons? {
      if f.head.Element? {
        WellNestedHasNoScopedLeak(f.head.children, inScope || HasXData(f.head.tag));
      }
      WellNestedHasNoScopedLeak(f.tail, inScope);
    }
  }

  // ---------------------------------------------------------------- soundness under leaks

  predicate Subsequence(a: seq<Violation>, b: seq<Violation>)
    decreases |b|
  {
    if a == [] then true
    else if b == [] then false
    else
      || (a[|a| - 1] == b[|b| - 1] && Subsequence(a[..|a| - 1], b[..|b| - 1]))
      || Subsequence(a, b[..|b| - 1])
  }

  lemma {:induction false} SubsequencesAppend(a: seq<Violation>, b: seq<Violation>, c: seq<Violation>,
          d: seq<Violation>)
    requires Subsequence(a, b) && Subsequence(c, d)
    ensures Subsequence(a + c, b + d)
    decreases |d|
  {
    if d == [] {
      assert a + c == a && b + d == b;
    } else {
      assert (b + d)[..|b + d| - 1] == b + d[..|d| - 1];
      if c != [] && c[|c| - 1] == d[|d| - 1] && Subsequence(c[..|c| - 1], d[..|d| - 1]) {
        assert (a + c)[..|a + c| - 1] == a + c[..|c| - 1];
        SubsequencesAppend(a, b, c[..|c| - 1], d[..|d| - 1]);
      } else {
        SubsequencesAppend(a, b, c, d[..|d| - 1]);
      }
    }
  }

  lemma {:induction false} SubsequenceIsReflexive(a: seq<Violation>)
    ensures Subsequence(a, a)
  {
    if a != [] {
      SubsequenceIsReflexive(a[..|a| - 1]);
    }
  }

  lemma {:induction false} SeenIsSubsequence(f: Forest, inScope: bool, top: bool)
    requires inScope ==> top
    ensures Subsequence(Seen(f, top), Unscoped(f, inScope))
    decreases f
  {
    if f.Cons? {
      var (own, truly) := (top || HasXData(f.head.tag), inScope || HasXData(f.head.tag));
      var left := LeftByNode(f.head, top);
      SubsequenceIsReflexive(Reported(f.head.tag, truly));
      var (seen, all) := (Reported(f.head.tag, own), Reported(f.head.tag, truly));
      if f.head.Element? {
        SeenIsSubsequence(f.head.children, truly, own);
        SubsequencesAppend(seen, all, Seen(f.head.children, own), Unscoped(f.head.children, truly));
        seen, all := seen + Seen(f.head.children, own), all + Unscoped(f.head.children, truly);
      } else {
        assert seen + [] == seen && all + [] == all;
      }
      if inScope {
        RiseNode(f.head);
      }
      SeenIsSubsequence(f.tail, inScope, TopOver(left, top));
      SubsequencesAppend(seen, all, Seen(f.tail, TopOver(left, top)), Unscoped(f.tail, inScope));
    }
  }

  /** Leaks or not, what is reported is really out of scope: the report is a subsequence of the
      tree's violations. */
  lemma NothingInScopeIsReported(f: Forest)
    requires WellFormed(f)
    ensures Subsequence(Feed(State([], []), Events(f)).violations, Unscoped(f, false))
  {
    FeedLeaves(State([], []), f);
    SeenIsSubsequence(f, false, false);
    assert [] + Seen(f, false) == Seen(f, false);
  }

  // ---------------------------------------------------------------- what a leak does to the rest of the page

  /** Entries deeper in the document are in scope whenever entries below them are. */
  ghost predicate Rising(stack: seq<bool>)
  {
    forall i, j :: 0 <= i < j < |stack| ==> stack[i] ==> stack[j]
  }

  lemma {:induction false} RisingLeftover(f: Forest, top: bool)
    ensures Rising(Leftover(f, top))
    decreases f
  {
    if f.Cons? {
      RisingNode(f.head, top);
      var (left, above) := (LeftByNode(f.head, top), TopOver(LeftByNode(f.head, top), top));
      RisingLeftover(f.tail, above);
      if above {
        RiseInside(f.tail);
      }
    }
  }

  lemma {:induction false} RisingNode(n: Node, top: bool)
    ensures Rising(LeftByNode(n, top))
    decreases n
  {
    if n.Element? {
      var own := top || HasXData(n.tag);
      RisingLeftover(n.children, own);
      if own {
        RiseInside(n.children);
      }
    }
  }

  /** The rest of the page is reported as on a fresh start, whatever it is, exactly when the page so
      far leaves no true entry. */
  lemma ContinuationsAreFreshIff(f: Forest)
    requires WellFormed(f)
    ensures (forall g :: WellFormed(g) ==>
               Feed(State([], []), Events(f) + Events(g)).violations ==
               Feed(State([], []), Events(f)).violations + Feed(State([], []), Events(g)).violations) <==>
            AllFalse(Leftover(f, false))
  {
    var (start, left) := (State([], []), Leftover(f, false));
    RisingLeftover(f, false);
    TopOverConcat([], left);
    assert [] + left == left;
    forall g | WellFormed(g)
      ensures Feed(start, Events(f) + Events(g)).violations == Seen(f, false) + Seen(g, Top(left))
      ensures Feed(start, Events(f)).violations + Feed(start, Events(g)).violations == Seen(f, false) + Seen(g, false)
    {
      ContinuationSees(f, g);
    }
    var button := Cons(Element(Tag("a", ["@click"], 0), Nil), Nil);
    ButtonIsSeen();
    if !Top(left) {
      TopIsTheMost(left);
    } else {
      RiseInside(button);
      assert Seen(f, false) + Seen(button, true) != Seen(f, false) + Seen(button, false);
      assert Feed(start, Events(f) + Events(button)).violations !=
             Feed(start, Events(f)).violations + Feed(start, Events(button)).violations;
    }
  }

  lemma TopIsTheMost(stack: seq<bool>)
    requires Rising(stack) && !Top(stack)
    ensures AllFalse(stack)
  {
  }

  lemma ButtonIsSeen()
    ensures var button := Cons(Element(Tag("a", ["@click"], 0), Nil), Nil); WellFormed(button) && Seen(button, false) != []
  {
    var t := Tag("a", ["@click"], 0);
    assert Lower(t.name) == "a";
    assert t.attributes[..0] == [] && ClickKeys(t.attributes) == ["@click"];
  }

  lemma ContinuationSees(f: Forest, g: Forest)
    requires WellFormed(f) && WellFormed(g)
    ensures var start := State([], []);
            && Feed(start, Events(f) + Events(g)).violations == Seen(f, false) + Seen(g, Top(Leftover(f, false)))
            && Feed(start, Events(f)).violations == Seen(f, false)
            && Feed(start, Events(g)).violations == Seen(g, false)
  {
    var start := State([], []);
    FeedLeaves(start, f);
    FeedLeaves(start, g);
    FeedAppends(start, Events(f), Events(g));
    FeedLeaves(Feed(start, Events(f)), g);
    assert [] + Leftover(f, false) == Leftover(f, false);
    assert [] + Seen(f, false) == Seen(f, false) && [] + Seen(g, false) == Seen(g, false);
  }

  function Leaking(div: Tag, p: Tag, button: Tag): Forest
  {
    Cons(Element(div, Cons(Leaf(p, true), Nil)), Cons(Element(button, Nil), Nil))
  }

  lemma StartPushes(s: State, t: Tag)
    requires !IsVoid(t) && (HasXData(t) || Top(s.stack))
    ensures HandleStart(s, t) == State(s.stack + [true], s.violations)
  {
  }

  lemma LeakingRun(div: Tag, p: Tag, button: Tag)
    requires HandleStart(State([], []), div) == State([true], [])
    requires HandleStart(State([true], []), p) == HandleStart(State([true], []), button) == State([true, true], [])
    ensures Feed(State([], []), Events(Leaking(div, p, button))).violations == []
  {
    var (s0, s1) := (State([], []), State([true], []));
    var (leaf, rest) := (Cons(Leaf(p, true), Nil), Cons(Element(button, Nil), Nil));
    FeedNode(s0, Leaking(div, p, button));
    FeedNode(s1, leaf);
    FeedNode(s1, rest);
  }

  lemma LeakingTree(div: Tag, p: Tag, button: Tag)
    requires HasXData(div) && !HasXData(button)
    ensures Unscoped(Leaking(div, p, button), false) == Reported(button, false)
  {
    var (leaf, rest) := (Cons(Leaf(p, true), Nil), Cons(Element(button, Nil), Nil));
    assert Unscoped(leaf, true) == [];
    assert Unscoped(rest, false) == Reported(button, false);
  }

  lemma LeakingIsWellFormed(div: Tag, p: Tag, button: Tag)
    requires !IsVoid(div) && !IsVoid(button)
    ensures WellFormed(Leaking(div, p, button))
  {
    assert WellFormed(Cons(Leaf(p, true), Nil));
    assert WellFormed(Cons(Element(button, Nil), Nil));
  }

  /** The smallest case, `<div x-data><p/></div><button @click>`: the end tag pops the entry of `p`,
      and the one of `div` is on top when the button comes. */
  lemma ScopedLeakHidesAViolation(div: Tag, p: Tag, button: Tag)
    requires !IsVoid(div) && !IsVoid(p) && !IsVoid(button)
    requires HasXData(div) && !HasXData(button) && ClickKeys(button.attributes) != []
    ensures WellFormed(Leaking(div, p, button))
    ensures Unscoped(Leaking(div, p, button), false) != []
    ensures Feed(State([], []), Events(Leaking(div, p, button))).violations == []
  {
    StartPushes(State([], []), div);
    StartPushes(State([true], []), p);
    StartPushes(State([true], []), button);
    LeakingRun(div, p, button);
    LeakingTree(div, p, button);
    LeakingIsWellFormed(div, p, button);
  }
}
