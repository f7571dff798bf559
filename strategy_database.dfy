/** The strategy screen (components/strategy-database.tsx): a fixed list of built-in
    strategies and, on a second tab, the user's own strategies loaded from
    "ownStrategies", each removable. */
module StrategyDatabase {
  import opened Wrappers
  import opened Seqs
  import opened LocalStorage
  import opened AddOwnStrategy

  /** `ownStrategies.filter((strategy) => strategy.id !== id)`. */
  function WithoutStrategy(list: seq<UserStrategy>, id: int): seq<UserStrategy>
  {
    Filter(list, (s: UserStrategy) => s.id != id)
  }

  /** Removal keeps exactly the strategies with another id, in their order, and
      removing again changes nothing. */
  lemma WithoutStrategyKeepsOthers(list: seq<UserStrategy>, more: seq<UserStrategy>, id: int)
    ensures forall s :: s in WithoutStrategy(list, id) <==> s in list && s.id != id
    ensures WithoutStrategy(list + more, id) == WithoutStrategy(list, id) + WithoutStrategy(more, id)
    ensures WithoutStrategy(WithoutStrategy(list, id), id) == WithoutStrategy(list, id)
  {
    FilterAppend(list, more, (s: UserStrategy) => s.id != id);
    FilterIdempotent(list, (s: UserStrategy) => s.id != id);
  }

  /** Removing an id that no strategy has leaves the list as it was. */
  lemma WithoutAbsentIdIsIdentity(list: seq<UserStrategy>, id: int)
    requires forall j :: 0 <= j < |list| ==> list[j].id != id
    ensures WithoutStrategy(list, id) == list
  {
    FilterKeepsAll(list, (s: UserStrategy) => s.id != id);
  }

  /** The screen's state, with the store it reads and writes. */
  class Database {
    const store: Store
    var tab: string
    var ownStrategies: seq<UserStrategy>

    /** Mounting the screen and running its load effect. */
    constructor (store: Store)
      ensures this.store == store
      ensures tab == "strategies"
      ensures ownStrategies == store.StoredStrategies()
    {
      this.store := store;
      tab := "strategies";
      ownStrategies := store.StoredStrategies();
    }

    /** `handleClick(tab)`: the tab buttons. */
    method HandleClick(tab: string)
      modifies this`tab
      ensures this.tab == tab
    {
      this.tab := tab;
    }

    /** `removeStrategy(id)`: the list without that id, in memory and in the store. */
    method RemoveStrategy(id: int)
      modifies this`ownStrategies, store`ownStrategies
      ensures ownStrategies == WithoutStrategy(old(ownStrategies), id)
      ensures store.ownStrategies == Some(ownStrategies)
    {
      var updatedStrategies := WithoutStrategy(ownStrategies, id);
      ownStrategies := updatedStrategies;
      store.ownStrategies := Some(updatedStrategies);
    }

    /** The built-in list is shown on the "strategies" tab. */
    function ShowsBuiltIn(): bool
      reads this
    {
      tab == "strategies"
    }

    /** The user's list is shown on the "own" tab. */
    function ShowsOwn(): bool
      reads this
    {
      tab == "own"
    }

    /** "You haven't added any strategies yet." */
    function ShowsEmptyState(): (r: bool)
      reads this
      ensures r <==> ShowsOwn() && ownStrategies == []
    {
      tab == "own" && |ownStrategies| < 1
    }
  }

  /** The two lists never show together, and the empty-state message only shows on
      the "own" tab when the user list is empty. */
  lemma TabsAreExclusive(db: Database)
    ensures !(db.ShowsBuiltIn() && db.ShowsOwn())
    ensures db.ShowsEmptyState() ==> !db.ShowsBuiltIn() && db.ownStrategies == []
  {
  }

  /** A strategy saved from the dialog while the screen is mounted is not in the
      screen's list, so the next removal of any strategy writes back the list loaded
      at mount time, less the removed id, and the saved strategy is lost. */
  method SaveThenRemoveDropsSaved(store: Store, form: StrategyForm, now: int, otherId: int) returns (db: Database)
    requires form.store == store
    requires !MissingField(form.title, form.description, form.content, form.image)
    modifies store, form
    ensures store.ownStrategies == Some(WithoutStrategy(old(store.StoredStrategies()), otherId))
  {
    db := new Database(store);
    form.HandleSave(now);
    db.RemoveStrategy(otherId);
  }
}
