// The records of src/lib/types.ts and the stored documents of the
// `visitors`, `visits` and `inventoryModels` collections.

module Types {
  import opened Wrappers

  /** Document ids. Firestore hands out fresh string ids; here a counter does. */
  type Id = nat

  /** The three lead stages (`VisitStage`), the status values the triage
      flow and the intake schema admit. */
  datatype Stage = HotNow | Researching | JustLooking {
    function Name(): string {
      match this
      case HotNow => "Hot Now"
      case Researching => "Researching"
      case JustLooking => "Just Looking"
    }
  }

  /** The stage whose name is `s`, if any. */
  function StageNamed(s: string): (r: Option<Stage>)
    ensures r.Some? ==> r.value.Name() == s
    ensures r.None? ==> forall st: Stage :: st.Name() != s
  {
    if s == "Hot Now" then Some(HotNow)
    else if s == "Researching" then Some(Researching)
    else if s == "Just Looking" then Some(JustLooking)
    else None
  }

  /** A JavaScript number as this code produces it: a non-negative integer,
      or NaN when parseInt meets a string without digits. */
  datatype Amount = Dollars(n: nat) | NaN

  /** A visitor document: only the name is written by the intake path. */
  datatype Visitor = Visitor(name: Option<string>, email: Option<string>, phone: Option<string>)

  /** The visitor `{ id, ...undefined }` that a join builds for a missing document. */
  const MissingVisitor := Visitor(None, None, None)

  /** A visit document. `stage` is kept as the stored text, with "" standing
      for any falsy value (absent, null or empty); `budgetMax` None is null;
      `endedAt` None is null, meaning the visit is active. Times are integers. */
  datatype Visit = Visit(
    visitorId: Id,
    hostUserEmail: string,
    stage: string,
    timeline: Option<string>,
    mustHave: Option<string>,
    budgetMin: Amount,
    budgetMax: Option<Amount>,
    startedAt: int,
    endedAt: Option<int>)

  /** `VisitWithVisitor`: a visit joined with its visitor and host. */
  datatype VisitView = VisitView(id: Id, visit: Visit, visitorId: Id, visitor: Visitor, hostName: string)

  /** An inventory document, and the `InventoryModel` read from it. */
  datatype InventoryDoc = InventoryDoc(name: string, basePrice: string, beds: string, baths: string, sqft: int, garage: int, active: bool)

  datatype InventoryModel = InventoryModel(id: Id, name: string, basePrice: string, beds: string, baths: string, sqft: int, garage: int, active: bool)

  /** A notification shown through the toast hook. */
  datatype Toast = Toast(title: string, description: string, destructive: bool)
}
