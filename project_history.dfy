/**
 * The project history: a list of generated projects kept in one
 * local-storage entry, read back newest first, added to with suppression
 * of a same-named project created within the last hour, capped at twenty
 * items, filtered, cleared, searched and summarised. Timestamps are
 * milliseconds since the epoch and are passed in, as is the new item's id.
 */
module ProjectHistory {
  import opened Wrappers
  import opened Seqs
  import opened Sorting

  const MaxHistoryItems := 20
  const OneHour := 60 * 60 * 1000
  const OneWeek := 7 * 24 * 60 * 60 * 1000

  datatype StackChoice = StackChoice(frontend: Option<string>, backend: Option<string>, database: Option<string>)

  /** What the caller describes: the item without its id and creation time. */
  datatype Info = Info(
    projectName: string,
    description: string,
    projectType: string,
    templateId: Option<string>,
    templateName: Option<string>,
    projectPath: Option<string>,
    sanitizedName: Option<string>,
    features: Option<seq<string>>,
    techStack: Option<StackChoice>)

  /** A history item; `createdAt` is the ISO time stamp read as milliseconds. */
  datatype Item = Item(id: string, createdAt: int, info: Info)

  /** The storage entry: absent (or empty), not a parsable list, or a list of items. */
  datatype Stored = Absent | Unparsable | Items(items: seq<Item>)

  function CreatedAt(item: Item): int { item.createdAt }

  /** What `getProjectHistory` returns for a storage entry: the items newest first, or nothing. */
  function HistoryOf(stored: Stored): seq<Item> {
    match stored
    case Items(xs) => SortDesc(xs, CreatedAt)
    case _ => []
  }

  /** The history holds exactly the stored items, newest first, and ties keep their stored order. */
  lemma HistoryNewestFirst(xs: seq<Item>, t: int)
    ensures SortedDesc(HistoryOf(Items(xs)), CreatedAt)
    ensures multiset(HistoryOf(Items(xs))) == multiset(xs)
    ensures WithKey(HistoryOf(Items(xs)), CreatedAt, t) == WithKey(xs, CreatedAt, t)
  {
    SortDescSorted(xs, CreatedAt);
    SortDescPermutation(xs, CreatedAt);
    SortDescStable(xs, CreatedAt, t);
  }

  /** Some item of the same name was created strictly after an hour before `now`. */
  predicate IsDuplicate(history: seq<Item>, projectName: string, now: int) {
    exists i :: 0 <= i < |history| && history[i].info.projectName == projectName && history[i].createdAt > now - OneHour
  }

  /** `unshift` followed by `slice(0, 20)`. */
  function Prepended(history: seq<Item>, item: Item): (r: seq<Item>)
    ensures |r| <= MaxHistoryItems
  {
    var h := [item] + history;
    h[..if |h| < MaxHistoryItems then |h| else MaxHistoryItems]
  }

  /** The new item comes first, followed by the older items in order, as many as fit in twenty. */
  lemma PrependedShape(history: seq<Item>, item: Item)
    ensures var r := Prepended(history, item);
      |r| == (if |history| < MaxHistoryItems then |history| + 1 else MaxHistoryItems) &&
      r[0] == item && r[1..] == history[..|r| - 1]
  {
  }

  /**
   * Once a project has been added at `now`, adding one of the same name
   * again before an hour has passed is suppressed.
   */
  lemma SecondAddSuppressed(history: seq<Item>, item: Item, later: int)
    requires later < item.createdAt + OneHour
    ensures IsDuplicate(HistoryOf(Items(Prepended(history, item))), item.info.projectName, later)
  {
    var xs := Prepended(history, item);
    var sorted := HistoryOf(Items(xs));
    SortDescPermutation(xs, CreatedAt);
    assert xs[0] == item;
    assert item in multiset(sorted);
    var i :| 0 <= i < |sorted| && sorted[i] == item;
  }

  /** `history.filter(item => item.id !== id)`. */
  function Without(history: seq<Item>, id: string): (r: seq<Item>)
    ensures forall x :: x in r <==> x in history && x.id != id
  {
    Filter(history, (x: Item) => x.id != id)
  }

  /** Removal keeps the other items in their order. */
  lemma WithoutKeepsOrder(history: seq<Item>, id: string)
    ensures IsSubsequence(Without(history, id), history)
  {
    FilterIsSubsequence(history, (x: Item) => x.id != id);
  }

  /** `find(item => item.id === id) || null`. */
  function FindItem(history: seq<Item>, id: string): (r: Option<Item>)
    ensures r.Some? ==> r.value in history && r.value.id == id
    ensures r.None? <==> forall i :: 0 <= i < |history| ==> history[i].id != id
    decreases |history|
  {
    if history == [] then None
    else if history[0].id == id then Some(history[0])
    else FindItem(history[1..], id)
  }

  /** The item found is the first one with the id. */
  lemma {:induction false} FindItemFirst(history: seq<Item>, k: nat)
    requires k < |history|
    requires forall j :: 0 <= j < k ==> history[j].id != history[k].id
    ensures FindItem(history, history[k].id) == Some(history[k])
    decreases k
  {
    if k > 0 {
      FindItemFirst(history[1..], k - 1);
    }
  }

  /** After a removal, looking the id up finds nothing. */
  lemma RemovedNotFound(history: seq<Item>, id: string)
    ensures FindItem(Without(history, id), id).None?
  {
  }

  datatype Stats = Stats(total: nat, templates: nat, custom: nat, lastWeek: nat)

  predicate FromTemplate(item: Item) { Truthy(item.info.templateId) }

  function StatsOf(history: seq<Item>, now: int): Stats {
    Stats(
      |history|,
      |Filter(history, (x: Item) => FromTemplate(x))|,
      |Filter(history, (x: Item) => !FromTemplate(x))|,
      |Filter(history, (x: Item) => x.createdAt > now - OneWeek)|)
  }

  /** Every item is counted as from a template or custom, never both. */
  lemma {:induction false} FilterSplit(s: seq<Item>, p: Item -> bool, q: Item -> bool)
    requires forall x :: q(x) == !p(x)
    ensures |Filter(s, p)| + |Filter(s, q)| == |s|
    decreases |s|
  {
    if s != [] {
      FilterSplit(s[1..], p, q);
    }
  }

  /** Templates and custom projects add up to the total, and the last week is part of it. */
  lemma StatsConsistent(history: seq<Item>, now: int)
    ensures var st := StatsOf(history, now);
      st.templates + st.custom == st.total && st.lastWeek <= st.total
  {
    FilterSplit(history, (x: Item) => FromTemplate(x), (x: Item) => !FromTemplate(x));
  }

  /** The history of one browser: its storage entry is the only state. */
  class History {
    var stored: Stored

    constructor(initial: Stored)
      ensures stored == initial
    {
      stored := initial;
    }

    /** Parses the entry and sorts the parsed list in place, newest first; the entry itself is not rewritten. */
    method GetProjectHistory() returns (history: seq<Item>)
      ensures history == HistoryOf(stored)
    {
      match stored
      case Items(xs) =>
        var a := new Item[|xs|](i requires 0 <= i < |xs| => xs[i]);
        assert a[..] == xs;
        SortDescInPlace(a, CreatedAt);
        history := a[..];
      case _ =>
        history := [];
    }

    /**
     * Skips the addition when a same-named project is less than an hour
     * old; otherwise stores the new item in front of the sorted history,
     * keeping at most twenty.
     */
    method AddToHistory(project: Info, newId: string, now: int)
      modifies this
      ensures IsDuplicate(old(HistoryOf(stored)), project.projectName, now) ==> stored == old(stored)
      ensures !IsDuplicate(old(HistoryOf(stored)), project.projectName, now) ==>
        stored == Items(Prepended(old(HistoryOf(stored)), Item(newId, now, project)))
    {
      var history := GetProjectHistory();
      var newItem := Item(newId, now, project);
      if IsDuplicate(history, project.projectName, now) {
        return;
      }
      stored := Items(Prepended(history, newItem));
    }

    /** Stores the sorted history without the items carrying `id`. */
    method RemoveFromHistory(id: string)
      modifies this
      ensures stored == Items(Without(old(HistoryOf(stored)), id))
    {
      var history := GetProjectHistory();
      stored := Items(Without(history, id));
    }

    method ClearHistory()
      modifies this
      ensures stored == Absent && HistoryOf(stored) == []
    {
      stored := Absent;
    }

    method GetProjectFromHistory(id: string) returns (item: Option<Item>)
      ensures item == FindItem(HistoryOf(stored), id)
    {
      var history := GetProjectHistory();
      item := FindItem(history, id);
    }

    method GetHistoryStats(now: int) returns (st: Stats)
      ensures st == StatsOf(HistoryOf(stored), now)
    {
      var history := GetProjectHistory();
      st := StatsOf(history, now);
    }
  }
}
