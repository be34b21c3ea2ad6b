/** The browser's local storage, shared by the page and the sign-in screen.
    Values are kept already parsed; JSON is not modelled. */
module SessionStore {
  import opened Records

  const UserKey: string := "energipro_user"
  const BillsKey: string := "energipro_bills"
  const QuizKey: string := "energipro_quiz"
  const PlanKey: string := "energipro_plan"

  /** A stored value, tagged with what it holds. */
  datatype Entry = UserEntry(user: User) | BillsEntry(bills: seq<Bill>) | QuizEntry(quiz: QuizData) | PlanEntry(plan: Plan)

  /** Each of the app's four keys, when present, holds the kind of value the app writes there. */
  ghost predicate WellTyped(items: map<string, Entry>)
  {
    (UserKey in items ==> items[UserKey].UserEntry?) &&
    (BillsKey in items ==> items[BillsKey].BillsEntry?) &&
    (QuizKey in items ==> items[QuizKey].QuizEntry?) &&
    (PlanKey in items ==> items[PlanKey].PlanEntry?)
  }

  /** Reading a slot: the value written under its key, or nothing when the key
      is absent (or holds something else). */
  function UserIn(items: map<string, Entry>): (r: Option<User>)
    ensures r.Some? <==> UserKey in items && items[UserKey].UserEntry?
    ensures r.Some? ==> items[UserKey] == UserEntry(r.value)
  {
    if UserKey in items && items[UserKey].UserEntry? then Some(items[UserKey].user) else None
  }

  function BillsIn(items: map<string, Entry>): (r: Option<seq<Bill>>)
    ensures r.Some? <==> BillsKey in items && items[BillsKey].BillsEntry?
    ensures r.Some? ==> items[BillsKey] == BillsEntry(r.value)
  {
    if BillsKey in items && items[BillsKey].BillsEntry? then Some(items[BillsKey].bills) else None
  }

  function QuizIn(items: map<string, Entry>): (r: Option<QuizData>)
    ensures r.Some? <==> QuizKey in items && items[QuizKey].QuizEntry?
    ensures r.Some? ==> items[QuizKey] == QuizEntry(r.value)
  {
    if QuizKey in items && items[QuizKey].QuizEntry? then Some(items[QuizKey].quiz) else None
  }

  function PlanIn(items: map<string, Entry>): (r: Option<Plan>)
    ensures r.Some? <==> PlanKey in items && items[PlanKey].PlanEntry?
    ensures r.Some? ==> items[PlanKey] == PlanEntry(r.value)
  {
    if PlanKey in items && items[PlanKey].PlanEntry? then Some(items[PlanKey].plan) else None
  }

  /** The app's four keys are distinct, so writing one never disturbs another. */
  lemma KeysDistinct()
    ensures UserKey != BillsKey && UserKey != QuizKey && UserKey != PlanKey
    ensures BillsKey != QuizKey && BillsKey != PlanKey && QuizKey != PlanKey
  {
    assert UserKey[10] == 'u' && QuizKey[10] == 'q' && PlanKey[10] == 'p';
    assert |BillsKey| == 15 && |UserKey| == 14 && |QuizKey| == 14 && |PlanKey| == 14;
  }

  /** A slot reads back what was last written to it, and writing one slot leaves
      the other three as they were. */
  lemma ReadAfterWrite(items: map<string, Entry>, u: User, bs: seq<Bill>, q: QuizData, p: Plan)
    ensures UserIn(items[UserKey := UserEntry(u)]) == Some(u)
    ensures BillsIn(items[BillsKey := BillsEntry(bs)]) == Some(bs)
    ensures QuizIn(items[QuizKey := QuizEntry(q)]) == Some(q)
    ensures PlanIn(items[PlanKey := PlanEntry(p)]) == Some(p)
    ensures var w := items[PlanKey := PlanEntry(p)];
      UserIn(w) == UserIn(items) && BillsIn(w) == BillsIn(items) && QuizIn(w) == QuizIn(items)
    ensures var w := items[QuizKey := QuizEntry(q)];
      UserIn(w) == UserIn(items) && BillsIn(w) == BillsIn(items) && PlanIn(w) == PlanIn(items)
    ensures var w := items[BillsKey := BillsEntry(bs)];
      UserIn(w) == UserIn(items) && QuizIn(w) == QuizIn(items) && PlanIn(w) == PlanIn(items)
    ensures var w := items[UserKey := UserEntry(u)];
      BillsIn(w) == BillsIn(items) && QuizIn(w) == QuizIn(items) && PlanIn(w) == PlanIn(items)
  {
    KeysDistinct();
  }

  class Storage {
    var items: map<string, Entry>

    ghost predicate Valid()
      reads this
    {
      WellTyped(items)
    }

    /** Storage as the browser holds it when the page loads. */
    constructor (items: map<string, Entry>)
      ensures this.items == items
    {
      this.items := items;
    }

    /** Overwrites the whole value under `key`. */
    method SetItem(key: string, e: Entry)
      modifies this
      ensures items == old(items)[key := e]
    {
      items := items[key := e];
    }

    /** Drops `key`; other keys are untouched. */
    method RemoveItem(key: string)
      modifies this
      ensures items == old(items) - {key}
    {
      items := items - {key};
    }
  }
}
