/** The invariant holds in every state of every run. */
module Runs {
  import opened Schema
  import opened Transactions
  import opened Protocol
  import opened Invariants
  import ProofsApi
  import ProofsClean
  import ProofsConsume
  import ProofsDispatch
  import ProofsEnrich

  lemma ReportedKeeps(s: System, m: ScrapeResult)
    requires Inv(s) && Answers(s, m)
    ensures Inv(s.(results := s.results + {m}))
  {
  }

  lemma ScraperKeeps(s: System, m: ScrapeResult)
    requires Inv(s) && Answers(s, m)
    ensures Inv(DoScrape(s, m))
  {
    ReportedKeeps(s, m);
    ObjectsDoNotMatter(s.(results := s.results + {m}), DoScrape(s, m));
  }

  predicate OfWorker(step: Step) { step.Dispatch? || step.Consume? || step.Enriching? || step.Cleaning? }

  lemma WorkersKeep(s: System, step: Step, t: System)
    requires Inv(s) && OfWorker(step) && Next(s, step, t)
    ensures Inv(t)
  {
    match step
    case Dispatch(token, dispatch) => ProofsDispatch.DispatchKeeps(s, token, dispatch, t);
    case Consume(consume) => ProofsConsume.ConsumeKeeps(s, consume, t);
    case Enriching(enrich) => ProofsEnrich.EnrichKeeps(s, enrich, t);
    case Cleaning(clean) => ProofsClean.CleanKeeps(s, clean, t);
  }

  lemma OthersKeep(s: System, step: Step, t: System)
    requires Inv(s) && !OfWorker(step) && Next(s, step, t)
    ensures Inv(t)
  {
    match step
    case Api(api) => ProofsApi.ApiKeeps(s, api, t);
    case Scraper(m) => ScraperKeeps(s, m);
    case PurgeDocuments(expired) => ProofsClean.PurgeKeeps(s, expired);
    case PurgeAccount(a) => ProofsClean.PurgeAccountKeeps(s, a);
  }

  /** Every step keeps the invariant. */
  lemma NextKeeps(s: System, step: Step, t: System)
    requires Inv(s) && Next(s, step, t)
    ensures Inv(t)
  {
    if OfWorker(step) {
      WorkersKeep(s, step, t);
    } else {
      OthersKeep(s, step, t);
    }
  }

  lemma RunStep(states: seq<System>, steps: seq<Step>, i: nat)
    requires IsRun(states, steps) && i < |steps|
    ensures Next(states[i], steps[i], states[i + 1])
  {
  }

  lemma KeptAt(states: seq<System>, steps: seq<Step>, i: nat)
    requires IsRun(states, steps) && i < |steps| && Inv(states[i])
    ensures Inv(states[i + 1])
  {
    RunStep(states, steps, i);
    NextKeeps(states[i], steps[i], states[i + 1]);
  }

  /** Every state of a run satisfies the invariant. */
  lemma {:induction false} RunKeeps(states: seq<System>, steps: seq<Step>, n: nat)
    requires IsRun(states, steps) && n < |states|
    ensures Inv(states[n])
    decreases n
  {
    if n == 0 {
      InitiallyOk();
    } else {
      RunKeeps(states, steps, n - 1);
      KeptAt(states, steps, n - 1);
    }
  }
}
