// The visit store of src/lib/actions.ts: the `visitors`, `visits` and
// `inventoryModels` collections as maps from ids to documents, with a supply
// of fresh ids, and the server actions that write and read them.

module VisitStore {
  import opened Wrappers
  import opened Text
  import opened Types
  import opened BudgetParsing
  import opened Validators
  import opened LeadFunnel

  /** Every visit is recorded as hosted by this user. */
  const HostUserEmail := "sarah@example.com"

  /** `hostUserEmail.split('@')[0]`: the text before the first '@'. */
  function HostName(email: string): (r: string)
    ensures StartsWith(email, r)
    ensures '@' !in r
    ensures |r| < |email| ==> email[|r|] == '@'
  {
    Split(email, '@')[0]
  }

  /** The host name is exactly the text before the first '@'. */
  lemma HostNameBeforeAt(email: string, at: nat)
    requires at < |email| && email[at] == '@'
    requires forall i :: 0 <= i < at ==> email[i] != '@'
    ensures HostName(email) == email[..at]
  {
    var r := HostName(email);
    assert email[..at] == r[..at];
  }

  /** Every visit created here shows "sarah" as its host. */
  lemma HostOfCreatedVisits(email: string)
    requires email == HostUserEmail
    ensures HostName(email) == "sarah"
  {
    HostNameBeforeAt(email, 5);
  }

  /** The join of a visit document with its visitor document; a missing
      visitor document gives a visitor with no fields. */
  function View(id: Id, visit: Visit, visitors: map<Id, Visitor>): VisitView {
    VisitView(id, visit, visit.visitorId,
      if visit.visitorId in visitors then visitors[visit.visitorId] else MissingVisitor,
      HostName(visit.hostUserEmail))
  }

  function IdsOf(views: seq<VisitView>): set<Id> {
    set k | 0 <= k < |views| :: views[k].id
  }

  predicate DistinctIds(views: seq<VisitView>) {
    forall j, k :: 0 <= j < k < |views| ==> views[j].id != views[k].id
  }

  /** Newest first: start times never increase along the list. */
  predicate NewestFirst(views: seq<VisitView>) {
    forall j, k :: 0 <= j < k < |views| ==> views[j].visit.startedAt >= views[k].visit.startedAt
  }

  /** One insertion step of the newest-first sort. */
  method InsertNewestFirst(views: seq<VisitView>, x: VisitView) returns (r: seq<VisitView>, at: nat)
    requires NewestFirst(views)
    ensures at <= |views| && r == views[..at] + [x] + views[at..]
    ensures NewestFirst(r)
  {
    at := 0;
    while at < |views| && views[at].visit.startedAt > x.visit.startedAt
      invariant 0 <= at <= |views|
      invariant forall k :: 0 <= k < at ==> views[k].visit.startedAt > x.visit.startedAt
    {
      at := at + 1;
    }
    r := views[..at] + [x] + views[at..];
  }

  /** The record createVisitorAndVisit returns: the new visit with its id. */
  datatype CreatedVisit = CreatedVisit(id: Id, visit: Visit)

  /** The store's three collections at one moment. */
  datatype Collections = Collections(visitors: map<Id, Visitor>, visits: map<Id, Visit>, inventoryModels: map<Id, InventoryDoc>)

  /** The collections `after` once `created` was made from `form` at time
      `now` in `before`: one new visitor holding the form's name, one new
      active visit pointing to it with the form's stage, answers and parsed
      budget, and nothing else changed. */
  predicate CreatedFrom(form: IntakeForm, now: int, created: CreatedVisit, before: Collections, after: Collections)
  {
    var visitorId := created.visit.visitorId;
    var budget := BudgetOf(form.budget);
    && visitorId !in before.visitors
    && created.id !in before.visits
    && after.visitors == before.visitors[visitorId := Visitor(Some(form.name), None, None)]
    && after.visits == before.visits[created.id := created.visit]
    && after.inventoryModels == before.inventoryModels
    && created.visit == Visit(visitorId, HostUserEmail, form.status.Name(), form.timeline, form.mustHave,
                              budget.min, budget.max, now, None)
  }

  class Store {
    var visitors: map<Id, Visitor>
    var visits: map<Id, Visit>
    var inventoryModels: map<Id, InventoryDoc>
    var nextId: Id

    function State(): (c: Collections)
      reads this
      ensures c.visitors == visitors && c.visits == visits && c.inventoryModels == inventoryModels
    {
      Collections(visitors, visits, inventoryModels)
    }

    /** Every id in use was handed out before `nextId`. */
    ghost predicate Valid()
      reads this
    {
      && (forall id :: id in visitors ==> id < nextId)
      && (forall id :: id in visits ==> id < nextId)
      && (forall id :: id in inventoryModels ==> id < nextId)
    }

    /** Every visit points to a visitor that exists. */
    ghost predicate Linked()
      reads this
    {
      forall id :: id in visits ==> visits[id].visitorId in visitors
    }

    /** Every stored visit's stage is one of the three stage names, as every
        write in this store makes it. */
    ghost predicate StagesNamed()
      reads this
    {
      forall id :: id in visits ==> visits[id].stage in AllStages
    }

    constructor ()
      ensures Valid() && Linked() && StagesNamed()
      ensures visitors == map[] && visits == map[] && inventoryModels == map[]
    {
      visitors, visits, inventoryModels := map[], map[], map[];
      nextId := 0;
    }

    /** The ids of the visits whose `endedAt` is null. */
    ghost function ActiveIds(): set<Id>
      reads this
    {
      set id | id in visits && visits[id].endedAt.None?
    }

    /** createVisitorAndVisit: insert the visitor, then a visit pointing to it
        that is active, started now, staged by the form's status and budgeted
        by its bucket token. */
    method CreateVisitorAndVisit(form: IntakeForm, now: int) returns (created: CreatedVisit)
      requires Valid()
      modifies this
      ensures Valid()
      ensures old(Linked()) ==> Linked()
      ensures old(StagesNamed()) ==> StagesNamed()
      ensures created.visit.visitorId !in old(visitors) && created.id !in old(visits)
      ensures created.id != created.visit.visitorId
      ensures visitors == old(visitors)[created.visit.visitorId := Visitor(Some(form.name), None, None)]
      ensures visits == old(visits)[created.id := created.visit]
      ensures inventoryModels == old(inventoryModels)
      ensures created.visit.hostUserEmail == HostUserEmail
      ensures created.visit.stage == form.status.Name()
      ensures created.visit.timeline == form.timeline && created.visit.mustHave == form.mustHave
      ensures Budget(created.visit.budgetMin, created.visit.budgetMax) == BudgetOf(form.budget)
      ensures created.visit.startedAt == now && created.visit.endedAt.None?
      ensures created.id in ActiveIds()
      ensures GetVisitDetails(created.id) == Some(View(created.id, created.visit, visitors))
      ensures CreatedFrom(form, now, created, old(State()), State())
    {
      var visitorId := nextId;
      visitors := visitors[visitorId := Visitor(Some(form.name), None, None)];
      nextId := nextId + 1;

      var budgetMin, budgetMax := ParseBudget(form.budget);
      var visit := Visit(visitorId, HostUserEmail, form.status.Name(), form.timeline, form.mustHave,
                         budgetMin, budgetMax, now, None);

      var visitId := nextId;
      visits := visits[visitId := visit];
      nextId := nextId + 1;

      created := CreatedVisit(visitId, visit);
    }

    /** getActiveVisits: every visit whose `endedAt` is null, once each,
        joined with its visitor and host, newest first. */
    method GetActiveVisits() returns (result: seq<VisitView>)
      ensures IdsOf(result) == ActiveIds()
      ensures DistinctIds(result)
      ensures NewestFirst(result)
      ensures forall k :: 0 <= k < |result| ==> result[k].id in visits && result[k] == View(result[k].id, visits[result[k].id], visitors)
      ensures forall k :: 0 <= k < |result| ==> result[k].visit.endedAt.None?
    {
      var pending := set id | id in visits && visits[id].endedAt.None?;
      result := [];
      while pending != {}
        invariant pending <= ActiveIds()
        invariant IdsOf(result) == ActiveIds() - pending
        invariant DistinctIds(result)
        invariant NewestFirst(result)
        invariant forall k :: 0 <= k < |result| ==> result[k].id in visits && result[k] == View(result[k].id, visits[result[k].id], visitors)
        invariant forall k :: 0 <= k < |result| ==> result[k].visit.endedAt.None?
        decreases pending
      {
        var id :| id in pending;
        var view := View(id, visits[id], visitors);
        var before := result;
        var at;
        result, at := InsertNewestFirst(result, view);
        InsertedIds(before, view, at, result);
        pending := pending - {id};
      }
    }

    /** getVisitDetails: the visit with its visitor and host, or None when
        the visit or its visitor document does not exist. */
    function GetVisitDetails(visitId: Id): (r: Option<VisitView>)
      reads this
      ensures r.None? <==> visitId !in visits || visits[visitId].visitorId !in visitors
      ensures r.Some? ==> r.value.id == visitId && r.value.visit == visits[visitId]
      ensures r.Some? ==> r.value.visitor == visitors[visits[visitId].visitorId]
      ensures r.Some? ==> r.value.visit.endedAt == visits[visitId].endedAt
      ensures r.Some? ==> r.value.hostName == HostName(visits[visitId].hostUserEmail)
    {
      if visitId !in visits then None
      else
        var visit := visits[visitId];
        if visit.visitorId !in visitors then None
        else Some(View(visitId, visit, visitors))
    }

    /** getAnalyticsData: every visit joined with its visitor, and the lead
        funnel of their stages. */
    method GetAnalyticsData() returns (allVisits: seq<VisitView>, leadScoreData: seq<FunnelEntry>)
      ensures IdsOf(allVisits) == visits.Keys
      ensures DistinctIds(allVisits)
      ensures forall k :: 0 <= k < |allVisits| ==> allVisits[k].id in visits && allVisits[k] == View(allVisits[k].id, visits[allVisits[k].id], visitors)
      ensures leadScoreData == LeadScore(StagesOf(allVisits))
      ensures Total(leadScoreData) == |visits|
      ensures StagesNamed() ==> |leadScoreData| == 3 && forall k :: 0 <= k < 3 ==> leadScoreData[k].name in AllStages
    {
      allVisits := JoinAllVisits();
      var stages := StagesOf(allVisits);
      leadScoreData := LeadScoreData(stages);
      LeadScoreTotal(stages);
      if StagesNamed() {
        ExactlyThreeRows(stages);
      }
      DistinctIdsCount(allVisits);
      assert |visits| == |visits.Keys|;
    }

    /** The join of every visit document, in the (unspecified) order the query returns them. */
    method JoinAllVisits() returns (allVisits: seq<VisitView>)
      ensures IdsOf(allVisits) == visits.Keys
      ensures DistinctIds(allVisits)
      ensures forall k :: 0 <= k < |allVisits| ==> allVisits[k].id in visits && allVisits[k] == View(allVisits[k].id, visits[allVisits[k].id], visitors)
    {
      var pending := visits.Keys;
      allVisits := [];
      while pending != {}
        invariant pending <= visits.Keys
        invariant IdsOf(allVisits) == visits.Keys - pending
        invariant DistinctIds(allVisits)
        invariant forall k :: 0 <= k < |allVisits| ==> allVisits[k].id in visits && allVisits[k] == View(allVisits[k].id, visits[allVisits[k].id], visitors)
        decreases pending
      {
        var id :| id in pending;
        var view := View(id, visits[id], visitors);
        var before := allVisits;
        allVisits := allVisits + [view];
        InsertedIds(before, view, |before|, allVisits);
        pending := pending - {id};
      }
    }

    /** getInventory: every inventory document with its id. */
    method GetInventory() returns (models: seq<InventoryModel>)
      ensures ModelIds(models) == inventoryModels.Keys
      ensures DistinctModelIds(models)
      ensures |models| == |inventoryModels|
      ensures forall k :: 0 <= k < |models| ==> models[k].id in inventoryModels && models[k] == ModelOf(models[k].id, inventoryModels[models[k].id])
    {
      models := CollectModels();
      ModelIdsCount(models);
      assert |inventoryModels| == |inventoryModels.Keys|;
    }

    /** The inventory documents with their ids, in the (unspecified) order the query returns them. */
    method CollectModels() returns (models: seq<InventoryModel>)
      ensures ModelIds(models) == inventoryModels.Keys
      ensures DistinctModelIds(models)
      ensures forall k :: 0 <= k < |models| ==> models[k].id in inventoryModels && models[k] == ModelOf(models[k].id, inventoryModels[models[k].id])
    {
      var pending := inventoryModels.Keys;
      models := [];
      while pending != {}
        invariant pending <= inventoryModels.Keys
        invariant ModelIds(models) == inventoryModels.Keys - pending
        invariant DistinctModelIds(models)
        invariant forall k :: 0 <= k < |models| ==> models[k].id in inventoryModels && models[k] == ModelOf(models[k].id, inventoryModels[models[k].id])
        decreases pending
      {
        var id :| id in pending;
        var before := models;
        models := models + [ModelOf(id, inventoryModels[id])];
        AppendedModelIds(before, ModelOf(id, inventoryModels[id]));
        pending := pending - {id};
      }
    }
  }

  function ModelIds(models: seq<InventoryModel>): set<Id> {
    set k | 0 <= k < |models| :: models[k].id
  }

  predicate DistinctModelIds(models: seq<InventoryModel>) {
    forall j, k :: 0 <= j < k < |models| ==> models[j].id != models[k].id
  }

  /** Appending a model whose id is new adds exactly that id and keeps ids distinct. */
  lemma AppendedModelIds(models: seq<InventoryModel>, m: InventoryModel)
    requires DistinctModelIds(models) && m.id !in ModelIds(models)
    ensures ModelIds(models + [m]) == ModelIds(models) + {m.id}
    ensures DistinctModelIds(models + [m])
  {
    var after := models + [m];
    forall y | y in ModelIds(after)
      ensures y in ModelIds(models) + {m.id}
    {
      var k :| 0 <= k < |after| && after[k].id == y;
      if k < |models| { assert models[k].id == y; }
    }
    forall y | y in ModelIds(models)
      ensures y in ModelIds(after)
    {
      var k :| 0 <= k < |models| && models[k].id == y;
      assert after[k].id == y;
    }
    assert after[|models|].id == m.id;
    forall j, k | 0 <= j < k < |after|
      ensures after[j].id != after[k].id
    {
      if k == |models| { assert after[j].id == models[j].id; }
    }
  }

  /** A list of models with distinct ids is as long as its set of ids is large. */
  lemma {:induction false} ModelIdsCount(models: seq<InventoryModel>)
    requires DistinctModelIds(models)
    ensures |ModelIds(models)| == |models|
    decreases |models|
  {
    if models != [] {
      var init := models[..|models| - 1];
      var last := models[|models| - 1];
      assert init + [last] == models;
      ModelIdsCount(init);
      assert last.id !in ModelIds(init);
      AppendedModelIds(init, last);
    }
  }

  /** `{ id: doc.id, ...doc.data() }` for an inventory document. */
  function ModelOf(id: Id, doc: InventoryDoc): InventoryModel {
    InventoryModel(id, doc.name, doc.basePrice, doc.beds, doc.baths, doc.sqft, doc.garage, doc.active)
  }

  function StagesOf(views: seq<VisitView>): (r: seq<string>)
    ensures |r| == |views| && forall k :: 0 <= k < |views| ==> r[k] == views[k].visit.stage
  {
    seq(|views|, k requires 0 <= k < |views| => views[k].visit.stage)
  }

  /** Inserting a view whose id is new adds exactly that id. */
  lemma InsertedIds(before: seq<VisitView>, x: VisitView, at: nat, after: seq<VisitView>)
    requires at <= |before| && after == before[..at] + [x] + before[at..]
    requires DistinctIds(before) && x.id !in IdsOf(before)
    ensures IdsOf(after) == IdsOf(before) + {x.id}
    ensures DistinctIds(after)
  {
    assert forall k :: 0 <= k < at ==> after[k] == before[k];
    assert after[at] == x;
    assert forall k :: at < k < |after| ==> after[k] == before[k - 1];
    forall y | y in IdsOf(after)
      ensures y in IdsOf(before) + {x.id}
    {
      var k :| 0 <= k < |after| && after[k].id == y;
      if k < at { assert before[k].id == y; }
      else if k > at { assert before[k - 1].id == y; }
    }
    forall y | y in IdsOf(before)
      ensures y in IdsOf(after)
    {
      var k :| 0 <= k < |before| && before[k].id == y;
      if k < at { assert after[k].id == y; } else { assert after[k + 1].id == y; }
    }
    assert x.id in IdsOf(after);
    forall j, k | 0 <= j < k < |after|
      ensures after[j].id != after[k].id
    {
      if j == at { assert after[k].id in IdsOf(before); }
      else if k == at { assert after[j].id in IdsOf(before); }
    }
  }

  /** A list with distinct ids is as long as its set of ids is large. */
  lemma {:induction false} DistinctIdsCount(views: seq<VisitView>)
    requires DistinctIds(views)
    ensures |IdsOf(views)| == |views|
    decreases |views|
  {
    if views != [] {
      var init := views[..|views| - 1];
      var last := views[|views| - 1];
      DistinctIdsCount(init);
      assert IdsOf(views) == IdsOf(init) + {last.id} by {
        forall y | y in IdsOf(views)
          ensures y in IdsOf(init) + {last.id}
        {
          var k :| 0 <= k < |views| && views[k].id == y;
          if k < |init| { assert init[k].id == y; }
        }
        forall y | y in IdsOf(init)
          ensures y in IdsOf(views)
        {
          var k :| 0 <= k < |init| && init[k].id == y;
          assert views[k].id == y;
        }
        assert views[|views| - 1].id == last.id;
      }
      assert last.id !in IdsOf(init);
    }
  }
}
