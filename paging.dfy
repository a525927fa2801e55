/** The page-state bag behind every continuation token: a stack of frames, each naming the
    phase still to enumerate and that phase's backend cursor. */
module Paging {
  import opened Outcomes

  /** One pending or running enumeration: a phase tag and its cursor ("" = first page). */
  datatype Frame = Frame(tag: string, cursor: string)

  /** The continuation token is the frame stack itself, bottom first and top last.
      The empty stack is the empty token: it starts a traversal and it ends one. */
  type Token = seq<Frame>

  function Top(frames: seq<Frame>): Frame
    requires |frames| > 0
  {
    frames[|frames| - 1]
  }

  function Below(frames: seq<Frame>): seq<Frame>
    requires |frames| > 0
  {
    frames[..|frames| - 1]
  }

  /** The stack a call starts from: an empty token seeds one frame for the resource type
      being synced, starting at its first page. */
  function Seed(token: Token, tag: string): (frames: seq<Frame>)
    ensures |frames| > 0
    ensures token == [] ==> frames == [Frame(tag, "")]
    ensures token != [] ==> frames == token
  {
    if token == [] then [Frame(tag, "")] else token
  }

  /** The stack after the top phase fetched a page whose next cursor is `next`: the top frame
      is popped, and pushed back with `next` iff `next` is not empty. */
  function Advance(frames: seq<Frame>, next: string): (r: seq<Frame>)
    requires |frames| > 0
    ensures |Below(frames)| <= |r| && r[..|Below(frames)|] == Below(frames)
    ensures next != "" ==> |r| == |frames| && Top(r) == Frame(Top(frames).tag, next)
    ensures next == "" ==> r == Below(frames)
  {
    if next != "" then Below(frames) + [Frame(Top(frames).tag, next)] else Below(frames)
  }

  /** The SDK's page bag, used in place by the connector's list and grant calls. */
  class Bag {
    var frames: seq<Frame>

    /** parsePageToken: unmarshal the token, seeding one frame when it is empty. */
    constructor Parse(token: Token, seedTag: string)
      ensures frames == Seed(token, seedTag)
    {
      frames := Seed(token, seedTag);
    }

    /** The tag of the current (top) frame, "" when there is none. */
    function ResourceTypeId(): (tag: string)
      reads this
      ensures frames != [] ==> tag == Top(frames).tag
    {
      if frames == [] then "" else Top(frames).tag
    }

    /** The cursor of the current (top) frame, "" when there is none. */
    function PageToken(): (cursor: string)
      reads this
      ensures frames != [] ==> cursor == Top(frames).cursor
    {
      if frames == [] then "" else Top(frames).cursor
    }

    method Pop() returns (f: Option<Frame>)
      modifies this
      ensures old(frames) == [] ==> f == None && frames == []
      ensures old(frames) != [] ==> f == Some(Top(old(frames))) && frames == Below(old(frames))
    {
      if frames == [] {
        f := None;
      } else {
        f := Some(Top(frames));
        frames := Below(frames);
      }
    }

    method Push(f: Frame)
      modifies this
      ensures frames == old(frames) + [f]
    {
      frames := frames + [f];
    }

    /** The token of the stack as it stands. */
    method Marshal() returns (token: Token)
      ensures token == frames
    {
      token := frames;
    }

    /** Advances the current phase by the backend's next cursor and marshals the result. */
    method NextToken(next: string) returns (r: Result<Token>)
      modifies this
      ensures old(frames) == [] ==> r == Failure(NoActivePageState) && frames == []
      ensures old(frames) != [] ==> frames == Advance(old(frames), next) && r == Success(frames)
    {
      var top := Pop();
      if top.None? {
        return Failure(NoActivePageState);
      }
      if next != "" {
        Push(Frame(top.value.tag, next));
      }
      var token := Marshal();
      r := Success(token);
    }
  }

  /** One call's output: the items and the token to resume from ([] when done). */
  datatype Page<T> = Page(items: seq<T>, nextToken: Token)

  function Flatten<T>(pages: seq<seq<T>>): seq<T>
    decreases |pages|
  {
    if pages == [] then [] else pages[0] + Flatten(pages[1..])
  }

  function MapSeq<S, T>(f: S -> T, xs: seq<S>): seq<T> {
    seq(|xs|, i requires 0 <= i < |xs| => f(xs[i]))
  }

  /** The items a phase delivers when the backend serves `pages`: every item of every page,
      in order, each converted. */
  function Delivered<S, T>(convert: S -> T, pages: seq<seq<S>>): seq<T> {
    MapSeq(convert, Flatten(pages))
  }

  lemma MapSeqAppend<S, T>(f: S -> T, xs: seq<S>, ys: seq<S>)
    ensures MapSeq(f, xs + ys) == MapSeq(f, xs) + MapSeq(f, ys)
  {
    assert forall i :: 0 <= i < |xs + ys| ==> MapSeq(f, xs + ys)[i] == (MapSeq(f, xs) + MapSeq(f, ys))[i];
  }

  /** A call that enumerates one page of the top phase: the backend page at the top frame's
      cursor, each item converted, and the stack advanced by the page's next cursor. */
  function PhaseStep<S, T>(fetch: string -> Result<(seq<S>, string)>, convert: S -> T, frames: seq<Frame>): (r: Result<Page<T>>)
    requires |frames| > 0
    ensures r.Success? <==> fetch(Top(frames).cursor).Success?
    ensures r.Failure? ==> r.error == fetch(Top(frames).cursor).error
    ensures r.Success? ==> |r.value.items| == |fetch(Top(frames).cursor).value.0|
    ensures r.Success? ==> forall i :: 0 <= i < |r.value.items| ==>
      r.value.items[i] == convert(fetch(Top(frames).cursor).value.0[i])
    // the phase stays on the stack with the next cursor iff there is one
    ensures r.Success? ==> r.value.nextToken == Advance(frames, fetch(Top(frames).cursor).value.1)
  {
    var page :- fetch(Top(frames).cursor);
    Success(Page(MapSeq(convert, page.0), Advance(frames, page.1)))
  }

  /** The items of `r` preceded by `items`; a failure stays a failure. */
  function Prepend<T>(items: seq<T>, r: Result<Page<T>>): Result<Page<T>> {
    match r
    case Success(p) => Success(Page(items + p.items, p.nextToken))
    case Failure(e) => Failure(e)
  }

  lemma PrependNothing<T>(r: Result<Page<T>>)
    ensures Prepend([], r) == r
  {
    if r.Success? {
      assert [] + r.value.items == r.value.items;
    }
  }

  lemma PrependPrepend<T>(xs: seq<T>, ys: seq<T>, r: Result<Page<T>>)
    ensures Prepend(xs, Prepend(ys, r)) == Prepend(xs + ys, r)
  {
    if r.Success? {
      assert xs + (ys + r.value.items) == (xs + ys) + r.value.items;
    }
  }

  /** The caller of a connector operation: start from `token`, call `step` at most `fuel`
      times, feeding each call the token the previous one returned, and stop on a failure or
      when a call returns the empty token. The result collects the items in call order, with
      the token still to be resumed ([] when the enumeration ended). */
  function Run<T>(step: Token -> Result<Page<T>>, token: Token, fuel: nat): Result<Page<T>>
    decreases fuel
  {
    if fuel == 0 then Success(Page([], token))
    else
      match step(token)
      case Failure(e) => Failure(e)
      case Success(p) =>
        if p.nextToken == [] then Success(p) else Prepend(p.items, Run(step, p.nextToken, fuel - 1))
  }

  /** The first call of a phase that serves `pages` from `cursor`: the first page's items,
      and the phase stays on the stack iff more pages follow. */
  lemma PhaseFirstStep<S, T>(step: Token -> Result<Page<T>>, rest: Token, tag: string,
                             fetch: string -> Result<(seq<S>, string)>, convert: S -> T,
                             cursor: string, pages: seq<seq<S>>)
    requires Chain(fetch, cursor, pages)
    requires step(rest + [Frame(tag, cursor)]) == PhaseStep(fetch, convert, rest + [Frame(tag, cursor)])
    ensures |pages| == 1 ==> step(rest + [Frame(tag, cursor)]) == Success(Page(MapSeq(convert, pages[0]), rest))
    ensures |pages| > 1 ==>
      step(rest + [Frame(tag, cursor)]) == Success(Page(MapSeq(convert, pages[0]), rest + [Frame(tag, fetch(cursor).value.1)]))
  {
    var frames := rest + [Frame(tag, cursor)];
    assert Top(frames) == Frame(tag, cursor);
    assert Below(frames) == rest;
  }

  /** One call of the caller's loop that does not end the enumeration. */
  lemma RunUnfold<T>(step: Token -> Result<Page<T>>, token: Token, p: Page<T>, n: nat)
    requires step(token) == Success(p) && p.nextToken != []
    ensures Run(step, token, n + 1) == Prepend(p.items, Run(step, p.nextToken, n))
  {
  }

  /** A call that delivers nothing and leaves `next`, followed by calls from `next` that
      deliver `items` and end, delivers `items` and ends. */
  lemma ThenRun<T>(step: Token -> Result<Page<T>>, token: Token, next: Token, items: seq<T>, n: nat, m: nat)
    requires m == n + 1
    requires step(token) == Success(Page([], next)) && next != []
    requires Run(step, next, n) == Success(Page(items, []))
    ensures Run(step, token, m) == Success(Page(items, []))
  {
    RunUnfold(step, token, Page([], next), n);
    PrependNothing(Run(step, next, n));
  }

  /** Draining the last phase: when the only phase left serves `pages` from `cursor` on, the
      next |pages| calls deliver exactly those pages' items, in order, and end the enumeration. */
  lemma {:induction false} LastPhaseDrain<S, T>(step: Token -> Result<Page<T>>, tag: string,
                                               fetch: string -> Result<(seq<S>, string)>, convert: S -> T,
                                               cursor: string, pages: seq<seq<S>>)
    requires Chain(fetch, cursor, pages)
    requires forall c: string {:trigger step([Frame(tag, c)])} ::
      step([Frame(tag, c)]) == PhaseStep(fetch, convert, [Frame(tag, c)])
    ensures Run(step, [Frame(tag, cursor)], |pages|) == Success(Page(Delivered(convert, pages), []))
    decreases |pages|
  {
    var first := MapSeq(convert, pages[0]);
    var frames := [Frame(tag, cursor)];
    assert Top(frames) == Frame(tag, cursor) && Below(frames) == [];
    assert step(frames) == PhaseStep(fetch, convert, frames);
    assert Flatten(pages) == pages[0] + Flatten(pages[1..]);
    if |pages| == 1 {
      assert step(frames) == Success(Page(first, []));
      assert pages[0] + [] == pages[0];
    } else {
      var next := fetch(cursor).value.1;
      assert step(frames) == Success(Page(first, [Frame(tag, next)]));
      RunUnfold(step, frames, Page(first, [Frame(tag, next)]), |pages[1..]|);
      LastPhaseDrain(step, tag, fetch, convert, next, pages[1..]);
      MapSeqAppend(convert, pages[0], Flatten(pages[1..]));
    }
  }

  /** Draining a phase above others: when the phase on top of `rest` serves `pages` from
      `cursor` on, the next |pages| calls deliver exactly those pages' items, in order, and
      leave `rest` to the calls after them. */
  lemma {:induction false} PhaseDrain<S, T>(step: Token -> Result<Page<T>>, rest: Token, tag: string,
                                           fetch: string -> Result<(seq<S>, string)>, convert: S -> T,
                                           cursor: string, pages: seq<seq<S>>, k: nat)
    requires rest != []
    requires Chain(fetch, cursor, pages)
    requires forall c: string {:trigger step(rest + [Frame(tag, c)])} ::
      step(rest + [Frame(tag, c)]) == PhaseStep(fetch, convert, rest + [Frame(tag, c)])
    ensures Run(step, rest + [Frame(tag, cursor)], |pages| + k) ==
      Prepend(Delivered(convert, pages), Run(step, rest, k))
    decreases |pages|
  {
    var frames := rest + [Frame(tag, cursor)];
    var first := MapSeq(convert, pages[0]);
    PhaseFirstStep(step, rest, tag, fetch, convert, cursor, pages);
    assert Flatten(pages) == pages[0] + Flatten(pages[1..]);
    if |pages| == 1 {
      assert pages[0] + [] == pages[0];
      RunUnfold(step, frames, Page(first, rest), k);
    } else {
      var next := fetch(cursor).value.1;
      var nextFrames := rest + [Frame(tag, next)];
      RunUnfold(step, frames, Page(first, nextFrames), |pages[1..]| + k);
      PhaseDrain(step, rest, tag, fetch, convert, next, pages[1..], k);
      MapSeqAppend(convert, pages[0], Flatten(pages[1..]));
      PrependPrepend(first, Delivered(convert, pages[1..]), Run(step, rest, k));
    }
  }

  /** Draining a phase, at its first page, above a stack whose own calls deliver `later` and
      end the enumeration: the phase's items come first, then `later`, and then the end. */
  lemma DrainOnto<S, T>(step: Token -> Result<Page<T>>, rest: Token, tag: string,
                        fetch: string -> Result<(seq<S>, string)>, convert: S -> T,
                        pages: seq<seq<S>>, k: nat, later: seq<T>)
    requires rest != []
    requires Chain(fetch, "", pages)
    requires forall c: string {:trigger step(rest + [Frame(tag, c)])} ::
      step(rest + [Frame(tag, c)]) == PhaseStep(fetch, convert, rest + [Frame(tag, c)])
    requires Run(step, rest, k) == Success(Page(later, []))
    ensures Run(step, rest + [Frame(tag, "")], |pages| + k) == Success(Page(Delivered(convert, pages) + later, []))
  {
    PhaseDrain(step, rest, tag, fetch, convert, "", pages, k);
  }

  /** Three phases stacked bottom `low`, middle `mid`, top `high`, each at its first page:
      the calls drain the top phase first, then the middle one, then the bottom one, and then
      end the enumeration. */
  lemma {:induction false} ThreePhaseDrain<A, B, C, T>(step: Token -> Result<Page<T>>,
      low: string, lowFetch: string -> Result<(seq<A>, string)>, lowConvert: A -> T, lowPages: seq<seq<A>>,
      mid: string, midFetch: string -> Result<(seq<B>, string)>, midConvert: B -> T, midPages: seq<seq<B>>,
      high: string, highFetch: string -> Result<(seq<C>, string)>, highConvert: C -> T, highPages: seq<seq<C>>)
    requires Chain(lowFetch, "", lowPages) && Chain(midFetch, "", midPages) && Chain(highFetch, "", highPages)
    requires forall c: string {:trigger step([Frame(low, c)])} ::
      step([Frame(low, c)]) == PhaseStep(lowFetch, lowConvert, [Frame(low, c)])
    requires forall c: string {:trigger step([Frame(low, "")] + [Frame(mid, c)])} ::
      step([Frame(low, "")] + [Frame(mid, c)]) == PhaseStep(midFetch, midConvert, [Frame(low, "")] + [Frame(mid, c)])
    requires forall c: string {:trigger step([Frame(low, "")] + [Frame(mid, "")] + [Frame(high, c)])} ::
      step([Frame(low, "")] + [Frame(mid, "")] + [Frame(high, c)]) ==
      PhaseStep(highFetch, highConvert, [Frame(low, "")] + [Frame(mid, "")] + [Frame(high, c)])
    ensures Run(step, [Frame(low, "")] + [Frame(mid, "")] + [Frame(high, "")], |highPages| + (|midPages| + |lowPages|)) ==
      Success(Page(Delivered(highConvert, highPages)
                   + (Delivered(midConvert, midPages) + Delivered(lowConvert, lowPages)), []))
  {
    var lows := Delivered(lowConvert, lowPages);
    var mids := Delivered(midConvert, midPages);
    LastPhaseDrain(step, low, lowFetch, lowConvert, "", lowPages);
    DrainOnto(step, [Frame(low, "")], mid, midFetch, midConvert, midPages, |lowPages|, lows);
    DrainOnto(step, [Frame(low, "")] + [Frame(mid, "")], high, highFetch, highConvert, highPages,
              |midPages| + |lowPages|, mids + lows);
  }

  /** A single-phase enumeration: when every call takes one page of the phase seeded with
      `tag`, the calls that start from the empty token deliver every page of the backend
      collection, in order, and then end. */
  lemma SinglePhaseTraversal<S, T>(step: Token -> Result<Page<T>>, tag: string,
                                   fetch: string -> Result<(seq<S>, string)>, convert: S -> T,
                                   pages: seq<seq<S>>)
    requires Chain(fetch, "", pages)
    requires forall token: Token :: step(token) == PhaseStep(fetch, convert, Seed(token, tag))
    ensures Run(step, [], |pages|) == Success(Page(Delivered(convert, pages), []))
  {
    forall c: string ensures step([Frame(tag, c)]) == PhaseStep(fetch, convert, [Frame(tag, c)]) {
      assert Seed([Frame(tag, c)], tag) == [Frame(tag, c)];
    }
    LastPhaseDrain(step, tag, fetch, convert, "", pages);
    assert step([]) == PhaseStep(fetch, convert, [Frame(tag, "")]);
  }
  /** Starting at `cursor`, the backend serves `pages` one after the other: every page but the
      last comes with a non-empty next cursor, which leads to the following page, and the last
      comes with "". This is what a finite backend collection looks like to a phase. */
  ghost predicate Chain<T>(fetch: string -> Result<(seq<T>, string)>, cursor: string, pages: seq<seq<T>>)
    decreases |pages|
  {
    && |pages| > 0
    && fetch(cursor).Success?
    && fetch(cursor).value.0 == pages[0]
    && if |pages| == 1 then fetch(cursor).value.1 == ""
       else fetch(cursor).value.1 != "" && Chain(fetch, fetch(cursor).value.1, pages[1..])
  }

  /** The cursor walk from `cursor` stops within `n` requests: some request fails, or reports
      no next cursor. */
  ghost predicate Ends<T>(fetch: string -> Result<(seq<T>, string)>, cursor: string, n: nat)
    decreases n
  {
    && n > 0
    && (fetch(cursor).Failure? || fetch(cursor).value.1 == "" || Ends(fetch, fetch(cursor).value.1, n - 1))
  }

  /** A walk the backend serves as a chain of pages stops after those pages. */
  lemma {:induction false} ChainEnds<T>(fetch: string -> Result<(seq<T>, string)>, cursor: string, pages: seq<seq<T>>)
    requires Chain(fetch, cursor, pages)
    ensures Ends(fetch, cursor, |pages|)
    decreases |pages|
  {
    if |pages| > 1 {
      ChainEnds(fetch, fetch(cursor).value.1, pages[1..]);
    }
  }
}
