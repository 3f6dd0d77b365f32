/**
 * The item loop that both WeChat webhooks run over the articles of a
 * `PUBLISHJOBFINISH` push (wechat_api/main.py and api/index.py): each item
 * is skipped, aborts the rest of the loop, or names a page to GET; a GET
 * whose outcome raises aborts the rest of the loop as well. One exception
 * handler spans the whole loop, so an abort ends it and nothing after it runs.
 */
module Batch {
  import opened Wrappers
  import opened Web
  import opened Coze

  /** What the loop body does with one item, decided from the item alone. */
  datatype Step = Skip | Abort | Fetch(title: Option<string>, url: string)

  /** One GET the loop makes: the item's title and URL, and what the site answered. */
  datatype Visit = Visit(title: Option<string>, url: string, outcome: FetchOutcome)

  /** The effects of (part of) a loop: the pages visited, in order, and whether it was aborted. */
  datatype Run = Run(visits: seq<Visit>, aborted: bool)

  /** The URLs fetched by a sequence of visits. */
  function Urls(vs: seq<Visit>): (r: seq<string>)
    ensures |r| == |vs|
    ensures forall k :: 0 <= k < |vs| ==> r[k] == vs[k].url
  {
    seq(|vs|, k requires 0 <= k < |vs| => vs[k].url)
  }

  lemma UrlsAppend(a: seq<Visit>, b: seq<Visit>)
    ensures Urls(a + b) == Urls(a) + Urls(b)
  {
    assert forall k :: 0 <= k < |a| + |b| ==> Urls(a + b)[k] == (Urls(a) + Urls(b))[k];
  }

  /**
   * The effects of the body for one step when the site has already served
   * `n` GETs; `raises` says which GET outcomes make the rest of the body raise.
   */
  function StepRun(site: Site, n: nat, s: Step, raises: FetchOutcome -> bool): (r: Run)
    ensures |r.visits| <= 1
    ensures s.Skip? ==> r == Run([], false)
    ensures s.Abort? ==> r == Run([], true)
    ensures s.Fetch? ==> r.visits == [Visit(s.title, s.url, site.ResponseTo(n))] && r.aborted == raises(site.ResponseTo(n))
  {
    match s
    case Skip => Run([], false)
    case Abort => Run([], true)
    case Fetch(t, u) =>
      var o := site.ResponseTo(n);
      Run([Visit(t, u, o)], raises(o))
  }

  /**
   * The effects of the first `i` passes of the loop over `steps`, which
   * starts after `n` GETs: those of each step in turn, up to and including
   * the first that aborts.
   */
  function RunOf(site: Site, n: nat, steps: seq<Step>, raises: FetchOutcome -> bool, i: nat): (r: Run)
    requires i <= |steps|
    ensures |r.visits| <= i
  {
    if i == 0 then Run([], false)
    else
      var before := RunOf(site, n, steps, raises, i - 1);
      if before.aborted then before
      else
        var e := StepRun(site, n + |before.visits|, steps[i - 1], raises);
        Run(before.visits + e.visits, e.aborted)
  }

  /** Once the loop has aborted, later passes change nothing. */
  lemma {:induction false} AbortStays(site: Site, n: nat, steps: seq<Step>, raises: FetchOutcome -> bool, i: nat, j: nat)
    requires i <= j <= |steps| && RunOf(site, n, steps, raises, i).aborted
    ensures RunOf(site, n, steps, raises, j) == RunOf(site, n, steps, raises, i)
    decreases j - i
  {
    if i < j {
      AbortStays(site, n, steps, raises, i, j - 1);
    }
  }

  /**
   * The pages a loop that never aborts would visit, as an independent
   * reference: the title and URL of every `Fetch` step before the first
   * `Abort`, in order.
   */
  function Targets(steps: seq<Step>): seq<(Option<string>, string)> {
    if steps == [] then []
    else match steps[0]
      case Skip => Targets(steps[1..])
      case Abort => []
      case Fetch(t, u) => [(t, u)] + Targets(steps[1..])
  }

  /** The title and URL of each visit. */
  function TargetsOf(vs: seq<Visit>): (r: seq<(Option<string>, string)>)
    ensures |r| == |vs|
    ensures forall k :: 0 <= k < |vs| ==> r[k] == (vs[k].title, vs[k].url)
  {
    seq(|vs|, k requires 0 <= k < |vs| => (vs[k].title, vs[k].url))
  }

  lemma TargetsOfAppend(a: seq<Visit>, b: seq<Visit>)
    ensures TargetsOf(a + b) == TargetsOf(a) + TargetsOf(b)
  {
    assert forall k :: 0 <= k < |a| + |b| ==> TargetsOf(a + b)[k] == (TargetsOf(a) + TargetsOf(b))[k];
  }

  /** The targets of a step list extended by one step: that step's, unless an earlier step aborts. */
  lemma {:induction false} TargetsSnoc(steps: seq<Step>, s: Step)
    ensures Targets(steps + [s]) == Targets(steps) + if Abort in steps then [] else Targets([s])
  {
    if steps == [] {
      assert steps + [s] == [s];
    } else {
      assert (steps + [s])[0] == steps[0] && (steps + [s])[1..] == steps[1..] + [s];
      TargetsSnoc(steps[1..], s);
      assert Abort in steps <==> steps[0] == Abort || Abort in steps[1..];
      if steps[0].Fetch? {
        AppendAssoc([(steps[0].title, steps[0].url)], Targets(steps[1..]), if Abort in steps[1..] then [] else Targets([s]));
      }
    }
  }

  /**
   * The loop visits the targets of the steps it has passed, in order, with
   * their own titles: all of them when it has not aborted, and a prefix of
   * them when it has.
   */
  lemma {:induction false} RunVisitsTargets(site: Site, n: nat, steps: seq<Step>, raises: FetchOutcome -> bool, i: nat)
    requires i <= |steps|
    ensures var r := RunOf(site, n, steps, raises, i);
      (!r.aborted ==> TargetsOf(r.visits) == Targets(steps[..i]) && Abort !in steps[..i])
      && (r.aborted ==> TargetsOf(r.visits) <= Targets(steps[..i]))
  {
    if i > 0 {
      RunVisitsTargets(site, n, steps, raises, i - 1);
      var before := RunOf(site, n, steps, raises, i - 1);
      var s := steps[i - 1];
      assert steps[..i] == steps[..i - 1] + [s];
      TargetsSnoc(steps[..i - 1], s);
      if !before.aborted {
        var e := StepRun(site, n + |before.visits|, s, raises);
        TargetsOfAppend(before.visits, e.visits);
        if s.Fetch? {
          assert Targets([s]) == [(s.title, s.url)];
        } else if s.Skip? {
          assert Targets([s]) == [];
        }
      } else {
        PrefixGrows(Targets(steps[..i - 1]), if Abort in steps[..i - 1] then [] else Targets([s]), TargetsOf(before.visits));
      }
    }
  }

  /** The k-th visit of the loop received the answer to the k-th GET it made. */
  lemma {:induction false} RunResponses(site: Site, n: nat, steps: seq<Step>, raises: FetchOutcome -> bool, i: nat)
    requires i <= |steps|
    ensures var r := RunOf(site, n, steps, raises, i);
      forall k :: 0 <= k < |r.visits| ==> r.visits[k].outcome == site.ResponseTo(n + k)
  {
    if i > 0 {
      RunResponses(site, n, steps, raises, i - 1);
      var before := RunOf(site, n, steps, raises, i - 1);
      assert forall k :: 0 <= k < |before.visits| ==> before.visits[k].outcome == site.ResponseTo(n + k) by {
        assert var r := RunOf(site, n, steps, raises, i - 1);
          forall k :: 0 <= k < |r.visits| ==> r.visits[k].outcome == site.ResponseTo(n + k);
      }
      if !before.aborted {
        var e := StepRun(site, n + |before.visits|, steps[i - 1], raises);
        var vs := before.visits + e.visits;
        assert RunOf(site, n, steps, raises, i).visits == vs;
        forall k | 0 <= k < |vs| ensures vs[k].outcome == site.ResponseTo(n + k) {
          if k < |before.visits| {
            assert vs[k] == before.visits[k];
            assert before.visits[k].outcome == site.ResponseTo(n + k);
          } else {
            assert steps[i - 1].Fetch? && k == |before.visits|;
            assert vs[k] == e.visits[0];
            assert e.visits[0].outcome == site.ResponseTo(n + |before.visits|);
          }
        }
      }
    }
  }

  /**
   * No visit but the last raised; a loop that was not aborted raised on no
   * visit; and one that was aborted met an `Abort` step or raised on its
   * last visit.
   */
  lemma {:induction false} RunRaises(site: Site, n: nat, steps: seq<Step>, raises: FetchOutcome -> bool, i: nat)
    requires i <= |steps|
    ensures var r := RunOf(site, n, steps, raises, i);
      (forall k :: 0 <= k < |r.visits| - 1 ==> !raises(r.visits[k].outcome))
      && (!r.aborted ==> forall k :: 0 <= k < |r.visits| ==> !raises(r.visits[k].outcome))
      && (r.aborted ==> Abort in steps[..i] || (r.visits != [] && raises(r.visits[|r.visits| - 1].outcome)))
  {
    if i > 0 {
      RunRaises(site, n, steps, raises, i - 1);
      var before := RunOf(site, n, steps, raises, i - 1);
      assert steps[..i] == steps[..i - 1] + [steps[i - 1]];
      assert Abort in steps[..i - 1] ==> Abort in steps[..i];
      if !before.aborted {
        assert forall k :: 0 <= k < |before.visits| ==> !raises(before.visits[k].outcome) by {
          assert var r := RunOf(site, n, steps, raises, i - 1);
            !r.aborted ==> forall k :: 0 <= k < |r.visits| ==> !raises(r.visits[k].outcome);
        }
        var e := StepRun(site, n + |before.visits|, steps[i - 1], raises);
        var vs := before.visits + e.visits;
        assert RunOf(site, n, steps, raises, i) == Run(vs, e.aborted);
        forall k | 0 <= k < |vs| && (k < |vs| - 1 || !e.aborted) ensures !raises(vs[k].outcome) {
          if k < |before.visits| { assert vs[k] == before.visits[k]; }
        }
        if e.aborted && !steps[i - 1].Abort? {
          assert vs[|vs| - 1] == e.visits[0];
        }
      }
    }
  }

  /**
   * A loop whose last visit did not raise (or that visited nothing) has
   * visited every target of the steps it passed: when it aborted, it was at
   * an `Abort` step, where the targets end.
   */
  lemma {:induction false} RunTargetsUnlessRaised(site: Site, n: nat, steps: seq<Step>, raises: FetchOutcome -> bool, i: nat)
    requires i <= |steps|
    ensures var r := RunOf(site, n, steps, raises, i);
      (r.visits == [] || !raises(r.visits[|r.visits| - 1].outcome)) ==> TargetsOf(r.visits) == Targets(steps[..i])
  {
    if i > 0 {
      RunVisitsTargets(site, n, steps, raises, i - 1);
      var before := RunOf(site, n, steps, raises, i - 1);
      var s := steps[i - 1];
      assert steps[..i] == steps[..i - 1] + [s];
      TargetsSnoc(steps[..i - 1], s);
      if before.aborted {
        if before.visits == [] || !raises(before.visits[|before.visits| - 1].outcome) {
          RunTargetsUnlessRaised(site, n, steps, raises, i - 1);
          RunRaises(site, n, steps, raises, i - 1);
        }
      } else {
        var e := StepRun(site, n + |before.visits|, s, raises);
        TargetsOfAppend(before.visits, e.visits);
        if s.Fetch? {
          assert Targets([s]) == [(s.title, s.url)];
        } else {
          assert Targets([s]) == [];
        }
      }
    }
  }

  lemma PrefixGrows<T>(a: seq<T>, b: seq<T>, p: seq<T>)
    requires p <= a
    ensures p <= a + b
  {
    assert (a + b)[..|p|] == a[..|p|];
  }

  /** The effects of the whole loop over `steps`. */
  function LoopRun(site: Site, n: nat, steps: seq<Step>, raises: FetchOutcome -> bool): Run {
    RunOf(site, n, steps, raises, |steps|)
  }

  /**
   * The `create_coze_doc` calls of a sequence of visits, where `pageUploads`
   * gives those of one visit: each visit's, in order.
   */
  function VisitUploads(pageUploads: Visit -> seq<Upload>, vs: seq<Visit>): seq<Upload>
    decreases |vs|, 0
  {
    if vs == [] then [] else UploadsFrom(pageUploads, vs[0], vs[1..])
  }

  /** The calls of the visit `v`, then those of the visits `more`. */
  function UploadsFrom(pageUploads: Visit -> seq<Upload>, v: Visit, more: seq<Visit>): seq<Upload>
    decreases |more|, 1
  {
    pageUploads(v) + VisitUploads(pageUploads, more)
  }

  lemma {:induction false} VisitUploadsAppend(pageUploads: Visit -> seq<Upload>, a: seq<Visit>, b: seq<Visit>)
    ensures VisitUploads(pageUploads, a + b) == VisitUploads(pageUploads, a) + VisitUploads(pageUploads, b)
  {
    if a == [] {
      assert a + b == b;
    } else {
      assert (a + b)[0] == a[0] && (a + b)[1..] == a[1..] + b;
      VisitUploadsAppend(pageUploads, a[1..], b);
      assert VisitUploads(pageUploads, a + b) == UploadsFrom(pageUploads, a[0], a[1..] + b);
      assert VisitUploads(pageUploads, a) == UploadsFrom(pageUploads, a[0], a[1..]);
      AppendAssoc(pageUploads(a[0]), VisitUploads(pageUploads, a[1..]), VisitUploads(pageUploads, b));
    }
  }

  lemma VisitUploadsOne(pageUploads: Visit -> seq<Upload>, v: Visit)
    ensures VisitUploads(pageUploads, [v]) == pageUploads(v)
  {
    assert [v][1..] == [];
    assert VisitUploads(pageUploads, [v]) == UploadsFrom(pageUploads, v, []);
    assert pageUploads(v) + [] == pageUploads(v);
  }

  /**
   * The loop has fetched the URLs and sent the POSTs of the visits `done`,
   * and the body then makes the visits `now`: it has made those of `done + now`.
   */
  lemma VisitsStep(apiKey: string, build: (string, Upload) -> Request, pageUploads: Visit -> seq<Upload>,
                   fetched0: seq<string>, fetched1: seq<string>, fetched2: seq<string>,
                   sent0: seq<Request>, sent1: seq<Request>, sent2: seq<Request>, done: seq<Visit>, now: seq<Visit>)
    requires fetched1 == fetched0 + Urls(done) && fetched2 == fetched1 + Urls(now)
    requires sent1 == sent0 + Requests(apiKey, VisitUploads(pageUploads, done), build)
    requires sent2 == sent1 + Requests(apiKey, VisitUploads(pageUploads, now), build)
    ensures fetched2 == fetched0 + Urls(done + now)
    ensures sent2 == sent0 + Requests(apiKey, VisitUploads(pageUploads, done + now), build)
  {
    UrlsAppend(done, now);
    AppendAssoc(fetched0, Urls(done), Urls(now));
    VisitUploadsAppend(pageUploads, done, now);
    SentAppend(sent0, sent1, sent2, apiKey, VisitUploads(pageUploads, done), VisitUploads(pageUploads, now), build);
  }

  /**
   * One pass of the loop: when the passes before step `i` made the visits
   * `done` without aborting, and the body for step `i` fetched and posted
   * what `StepRun` says, the passes up to and including step `i` made the
   * visits of `done` and then those of the body.
   */
  lemma LoopStep(site: Site, n0: nat, steps: seq<Step>, raises: FetchOutcome -> bool, i: nat,
                 apiKey: string, build: (string, Upload) -> Request, pageUploads: Visit -> seq<Upload>,
                 fetched0: seq<string>, fetched1: seq<string>, fetched2: seq<string>,
                 sent0: seq<Request>, sent1: seq<Request>, sent2: seq<Request>, done: seq<Visit>, raised: bool)
    requires i < |steps| && RunOf(site, n0, steps, raises, i) == Run(done, false)
    requires fetched1 == fetched0 + Urls(done) && |fetched1| == n0 + |done|
    requires sent1 == sent0 + Requests(apiKey, VisitUploads(pageUploads, done), build)
    requires var e := StepRun(site, n0 + |done|, steps[i], raises);
      fetched2 == fetched1 + Urls(e.visits)
      && sent2 == sent1 + Requests(apiKey, VisitUploads(pageUploads, e.visits), build)
      && raised == e.aborted
    ensures var e := StepRun(site, n0 + |done|, steps[i], raises);
      fetched2 == fetched0 + Urls(done + e.visits)
      && sent2 == sent0 + Requests(apiKey, VisitUploads(pageUploads, done + e.visits), build)
      && RunOf(site, n0, steps, raises, i + 1) == Run(done + e.visits, raised)
  {
    var e := StepRun(site, n0 + |done|, steps[i], raises);
    VisitsStep(apiKey, build, pageUploads, fetched0, fetched1, fetched2, sent0, sent1, sent2, done, e.visits);
  }
}
