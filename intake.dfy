// The visitor intake page of src/app/visitor-intake/page.tsx: its submit
// handler checks the name, diverts the magic name "Seed Database" to seeding,
// and otherwise asks the triage flow for a stage, creates the visitor and
// visit with it, and navigates to the new visit. The seeding call, the
// triage flow and the create action's failure are parameters.

module VisitorIntake {
  import opened Wrappers
  import opened Text
  import opened Types
  import opened Validators
  import opened VisitStore

  /** The name that turns the intake form into a seeding button. */
  const SeedName := "Seed Database"

  /** `TriageVisitorInput`: the three answers, each absent when left empty. */
  datatype TriageInput = TriageInput(budget: Option<string>, timeline: Option<string>, mustHave: Option<string>)

  /** `TriageVisitorOutput` */
  datatype TriageOutput = TriageOutput(status: Stage, reasoning: string)

  /** A call the handler makes to code outside the page. */
  datatype Call = SeedCall | TriageCall(input: TriageInput) | CreateCall(form: IntakeForm)

  /** `s || undefined` */
  function OrUndefined(s: string): (r: Option<string>)
    ensures r.None? <==> s == ""
    ensures r.Some? ==> r.value == s
  {
    if s == "" then None else Some(s)
  }

  /** The triage input built from the form's answers. */
  function TriageInputOf(budget: string, timeline: string, mustHave: string): TriageInput {
    TriageInput(OrUndefined(budget), OrUndefined(timeline), OrUndefined(mustHave))
  }

  /** `visitorData`: the answers as typed, empty strings included, with the triaged status. */
  function VisitorData(name: string, budget: string, timeline: string, mustHave: string, status: Stage): IntakeForm {
    IntakeForm(name, Some(budget), Some(timeline), Some(mustHave), status)
  }

  /** The record the page hands to the create action passes the intake
      schema whenever the name guard let it through. */
  lemma VisitorDataPassesSchema(name: string, budget: string, timeline: string, mustHave: string, status: Stage)
    requires name != ""
    ensures Parse(Raw(VisitorData(name, budget, timeline, mustHave, status))) == Ok(VisitorData(name, budget, timeline, mustHave, status))
  {
    ParseRaw(VisitorData(name, budget, timeline, mustHave, status));
  }

  /** An empty answer reaches triage as an absent field, a non-empty one as itself. */
  lemma EmptyAnswersAbsent(budget: string, timeline: string, mustHave: string)
    ensures TriageInputOf(budget, timeline, mustHave).budget.None? <==> budget == ""
    ensures TriageInputOf(budget, timeline, mustHave).timeline.None? <==> timeline == ""
    ensures TriageInputOf(budget, timeline, mustHave).mustHave.None? <==> mustHave == ""
    ensures budget != "" ==> TriageInputOf(budget, timeline, mustHave).budget == Some(budget)
    ensures timeline != "" ==> TriageInputOf(budget, timeline, mustHave).timeline == Some(timeline)
    ensures mustHave != "" ==> TriageInputOf(budget, timeline, mustHave).mustHave == Some(mustHave)
  {
  }

  class Page {
    var name: string
    var budget: string
    var timeline: string
    var mustHave: string
    var isLoading: bool
    var toasts: seq<Toast>
    /** The paths pushed onto the router, oldest first. */
    var pushed: seq<string>
    /** The calls made to code outside the page, oldest first. */
    var calls: seq<Call>

    constructor ()
      ensures name == "" && budget == "" && timeline == "" && mustHave == ""
      ensures !isLoading && toasts == [] && pushed == [] && calls == []
    {
      name, budget, timeline, mustHave := "", "", "", "";
      isLoading, toasts, pushed, calls := false, [], [], [];
    }

    /** `handleSubmit`. `seedError` is the message seeding throws (None when
        it succeeds), `triage` the triage flow's answer (None when it
        throws), and `createFails` whether the create action throws. */
    method HandleSubmit(store: Store, seedError: Option<string>, triage: Option<TriageOutput>, createFails: bool, now: int)
      returns (created: Option<CreatedVisit>)
      requires store.Valid()
      modifies this, store
      ensures store.Valid()
      ensures name == old(name) && budget == old(budget) && timeline == old(timeline) && mustHave == old(mustHave)
      ensures created.Some? <==> name != "" && name != SeedName && triage.Some? && !createFails
      ensures created.None? && !(name == SeedName && seedError.None?) ==> unchanged(store)
      // The name guard: a toast and nothing else.
      ensures name == "" ==>
        isLoading == old(isLoading) && pushed == old(pushed) && calls == old(calls) &&
        toasts == old(toasts) + [Toast("Please enter a name", "We need a name to address the visitor.", true)]
      // The seeding branch: loading ends whatever seeding does.
      ensures name == SeedName ==> calls == old(calls) + [SeedCall] && !isLoading
      ensures name == SeedName && seedError.None? ==>
        pushed == old(pushed) + ["/dashboard"] &&
        toasts == old(toasts) + [Toast("Database Seeded!", "Sample data has been added. You can now use the app.", false)]
      ensures name == SeedName && seedError.Some? ==>
        pushed == old(pushed) && toasts == old(toasts) + [Toast("Seeding Failed", seedError.value, true)]
      // Triage, then create: loading is never switched off on this path.
      ensures name != "" && name != SeedName ==> isLoading
      ensures name != "" && name != SeedName && triage.None? ==>
        calls == old(calls) + [TriageCall(TriageInputOf(budget, timeline, mustHave))]
      ensures name != "" && name != SeedName && triage.Some? ==>
        calls == old(calls) + [TriageCall(TriageInputOf(budget, timeline, mustHave)),
                               CreateCall(VisitorData(name, budget, timeline, mustHave, triage.value.status))]
      ensures name != "" && name != SeedName && (triage.None? || createFails) ==>
        pushed == old(pushed) + ["/dashboard"] &&
        toasts == old(toasts) + [Toast("AI Triage Failed", "Could not triage visitor. Proceeding with manual intake.", true)]
      ensures created.Some? ==>
        created.value.id !in old(store.visits) &&
        created.value.id in store.visits &&
        CreatedFrom(VisitorData(name, budget, timeline, mustHave, triage.value.status), now, created.value,
                    old(store.State()), store.State()) &&
        store.visits[created.value.id].stage == triage.value.status.Name() &&
        store.visits[created.value.id].endedAt.None? &&
        store.visits[created.value.id].startedAt == now &&
        store.GetVisitDetails(created.value.id).Some? &&
        pushed == old(pushed) + ["/visitors/" + ShowNat(created.value.id)] &&
        toasts == old(toasts) + [Toast(name + " triaged as: " + triage.value.status.Name(),
                                       triage.value.reasoning + ". Redirecting to tour...", false)]
    {
      created := None;
      if name == "" {
        toasts := toasts + [Toast("Please enter a name", "We need a name to address the visitor.", true)];
        return;
      }

      isLoading := true;

      if name == SeedName {
        Seed(seedError);
        return;
      }

      created := TriageAndCreate(store, triage, createFails, now);
    }

    /** The seeding branch, entered with loading on. */
    method Seed(seedError: Option<string>)
      modifies this
      ensures name == old(name) && budget == old(budget) && timeline == old(timeline) && mustHave == old(mustHave)
      ensures calls == old(calls) + [SeedCall] && !isLoading
      ensures seedError.None? ==>
        pushed == old(pushed) + ["/dashboard"] &&
        toasts == old(toasts) + [Toast("Database Seeded!", "Sample data has been added. You can now use the app.", false)]
      ensures seedError.Some? ==>
        pushed == old(pushed) && toasts == old(toasts) + [Toast("Seeding Failed", seedError.value, true)]
    {
      calls := calls + [SeedCall];
      match seedError {
        case None =>
          toasts := toasts + [Toast("Database Seeded!", "Sample data has been added. You can now use the app.", false)];
          pushed := pushed + ["/dashboard"];
        case Some(message) =>
          toasts := toasts + [Toast("Seeding Failed", message, true)];
      }
      isLoading := false;
    }

    /** The triage-then-create branch, entered with loading on; every
        failure is caught by one handler that still goes to the dashboard. */
    method TriageAndCreate(store: Store, triage: Option<TriageOutput>, createFails: bool, now: int)
      returns (created: Option<CreatedVisit>)
      requires store.Valid()
      modifies this, store
      ensures store.Valid()
      ensures name == old(name) && budget == old(budget) && timeline == old(timeline) && mustHave == old(mustHave)
      ensures isLoading == old(isLoading)
      ensures created.Some? <==> triage.Some? && !createFails
      ensures created.None? ==> unchanged(store)
      ensures triage.None? ==> calls == old(calls) + [TriageCall(TriageInputOf(budget, timeline, mustHave))]
      ensures triage.Some? ==>
        calls == old(calls) + [TriageCall(TriageInputOf(budget, timeline, mustHave)),
                               CreateCall(VisitorData(name, budget, timeline, mustHave, triage.value.status))]
      ensures triage.None? || createFails ==>
        pushed == old(pushed) + ["/dashboard"] &&
        toasts == old(toasts) + [Toast("AI Triage Failed", "Could not triage visitor. Proceeding with manual intake.", true)]
      // CreatedFrom fixes the new visitor and visit: fresh ids, the form's
      // stage, answers and budget, started now and still active.
      ensures created.Some? ==>
        CreatedFrom(VisitorData(name, budget, timeline, mustHave, triage.value.status), now, created.value,
                    old(store.State()), store.State()) &&
        store.GetVisitDetails(created.value.id).Some? &&
        pushed == old(pushed) + ["/visitors/" + ShowNat(created.value.id)] &&
        toasts == old(toasts) + [Toast(name + " triaged as: " + triage.value.status.Name(),
                                       triage.value.reasoning + ". Redirecting to tour...", false)]
    {
      created := None;
      var triageInput := TriageInputOf(budget, timeline, mustHave);
      calls := calls + [TriageCall(triageInput)];
      if triage.None? {
        toasts := toasts + [Toast("AI Triage Failed", "Could not triage visitor. Proceeding with manual intake.", true)];
        pushed := pushed + ["/dashboard"];
        return;
      }
      created := Create(store, triage.value, createFails, now);
    }

    /** The create step after a successful triage. */
    method Create(store: Store, triageResult: TriageOutput, createFails: bool, now: int)
      returns (created: Option<CreatedVisit>)
      requires store.Valid()
      modifies this, store
      ensures store.Valid()
      ensures name == old(name) && budget == old(budget) && timeline == old(timeline) && mustHave == old(mustHave)
      ensures isLoading == old(isLoading)
      ensures created.Some? <==> !createFails
      ensures created.None? ==> unchanged(store)
      ensures calls == old(calls) + [CreateCall(VisitorData(name, budget, timeline, mustHave, triageResult.status))]
      ensures createFails ==>
        pushed == old(pushed) + ["/dashboard"] &&
        toasts == old(toasts) + [Toast("AI Triage Failed", "Could not triage visitor. Proceeding with manual intake.", true)]
      ensures created.Some? ==>
        CreatedFrom(VisitorData(name, budget, timeline, mustHave, triageResult.status), now, created.value,
                    old(store.State()), store.State()) &&
        store.GetVisitDetails(created.value.id).Some? &&
        pushed == old(pushed) + ["/visitors/" + ShowNat(created.value.id)] &&
        toasts == old(toasts) + [Toast(name + " triaged as: " + triageResult.status.Name(),
                                       triageResult.reasoning + ". Redirecting to tour...", false)]
    {
      var visitorData := VisitorData(name, budget, timeline, mustHave, triageResult.status);
      calls := calls + [CreateCall(visitorData)];
      if createFails {
        toasts := toasts + [Toast("AI Triage Failed", "Could not triage visitor. Proceeding with manual intake.", true)];
        pushed := pushed + ["/dashboard"];
        return None;
      }
      var newVisit := store.CreateVisitorAndVisit(visitorData, now);
      toasts := toasts + [Toast(name + " triaged as: " + triageResult.status.Name(),
                                triageResult.reasoning + ". Redirecting to tour...", false)];
      pushed := pushed + ["/visitors/" + ShowNat(newVisit.id)];
      created := Some(newVisit);
    }
  }
}
