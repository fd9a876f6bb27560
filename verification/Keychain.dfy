/**
 The keychain accessibility migration: every account's secret moves to the target protection class by
 way of a staging service, over a store whose only primitives are an atomic add and an atomic delete.
 The process may be stopped before any store operation, and the migration is then run again.
 */
module Keychain {
  import opened Common
  import opened StringOrder

  datatype Accessibility = AfterFirstUnlockThisDeviceOnly | AfterFirstUnlock | Unexpected(name: string)

  /** An item; the label, description and the other preserved attributes are one opaque value. */
  datatype Item = Item(account: string, data: seq<Byte>, accessibility: Accessibility, attributes: string)

  datatype MigrationError =
    | InvalidService
    | DuplicateAccount(account: string)
    | ConflictingCopies(account: string)
    | UnexpectedAccessibility(account: string, accessibility: Accessibility)
    | KeychainFailure
    | Stopped

  /** What the canonical service and its staging service hold. */
  datatype State = State(canonical: seq<Item>, staging: seq<Item>)

  const ALLOWED_SERVICES := ["com.keplr.vizor.secure_store", "com.keplr.vizor.ironwood.secure_store",
                             "com.keplr.vizor.test.secure_store", "com.keplr.vizor.regtest.secure_store"]

  // ----- one account ------------------------------------------------------------------------

  /** The copies of one account in one service, the last one outermost. */
  datatype Copies = NoCopy | Copy(rest: Copies, last: Item)
  {
    predicate Single() { Copy? && rest == NoCopy }
    predicate Several() { Copy? && rest != NoCopy }
    function Added(it: Item, account: string): Copies { if it.account == account then Copy(this, it) else this }
    predicate Has(it: Item) { Copy? && (last == it || rest.Has(it)) }
  }

  function One(it: Item): Copies { Copy(NoCopy, it) }

  function Of(items: seq<Item>, account: string): Copies {
    if items == [] then NoCopy else Of(items[..|items| - 1], account).Added(items[|items| - 1], account)
  }

  function Without(items: seq<Item>, account: string): seq<Item> {
    if items == [] then []
    else Without(items[..|items| - 1], account) + (if items[|items| - 1].account == account then [] else [items[|items| - 1]])
  }

  /** How far the migration of one account is; `Stuck` accounts are for the user to resolve. */
  datatype Phase =
    | Absent
    | Legacy(data: seq<Byte>)
    | Copied(data: seq<Byte>)
    | Moved(data: seq<Byte>)
    | Restored(data: seq<Byte>)
    | Settled(data: seq<Byte>)
    | Stuck

  function PhaseOf(canonical: Copies, staging: Copies): Phase {
    if canonical.Several() || staging.Several() then Stuck
    else if staging.Copy? && staging.last.accessibility != AfterFirstUnlockThisDeviceOnly then Stuck
    else if canonical == NoCopy then (if staging == NoCopy then Absent else Moved(staging.last.data))
    else if staging.Copy? && staging.last.data != canonical.last.data then Stuck
    else
      match canonical.last.accessibility
      case AfterFirstUnlockThisDeviceOnly => if staging == NoCopy then Settled(canonical.last.data) else Restored(canonical.last.data)
      case AfterFirstUnlock => if staging == NoCopy then Legacy(canonical.last.data) else Copied(canonical.last.data)
      case Unexpected(_) => Stuck
  }

  function PhaseIn(s: State, account: string): Phase {
    PhaseOf(Of(s.canonical, account), Of(s.staging, account))
  }

  function Rank(p: Phase): nat {
    match p
    case Legacy(_) => 4
    case Copied(_) => 3
    case Moved(_) => 2
    case Restored(_) => 1
    case _ => 0
  }

  /** Some account is left for the user to resolve. */
  ghost predicate AnyStuck(s: State) { exists account :: PhaseIn(s, account).Stuck? }

  predicate Finished(p: Phase) { p.Absent? || p.Settled? }

  ghost predicate Untouched(s: State, t: State, account: string) {
    Of(s.canonical, account) == Of(t.canonical, account) && Of(s.staging, account) == Of(t.staging, account)
  }

  ghost predicate OthersUntouched(s: State, t: State, account: string) {
    forall other :: other != account ==> Untouched(s, t, other)
  }

  /** One store write that the migration may make: it takes one account one step on, with the same data, and touches no other. */
  ghost predicate LegalWrite(s: State, t: State, account: string) {
    && OthersUntouched(s, t, account)
    && Rank(PhaseIn(s, account)) == Rank(PhaseIn(t, account)) + 1
    && !PhaseIn(t, account).Stuck? && !PhaseIn(t, account).Absent?
    && PhaseIn(t, account).data == PhaseIn(s, account).data
  }

  // ----- lookups ----------------------------------------------------------------------------

  lemma {:induction false} OfMembers(items: seq<Item>, account: string)
    ensures forall it :: Of(items, account).Has(it) ==> it in items && it.account == account
  {
    if items != [] {
      OfMembers(items[..|items| - 1], account);
    }
  }

  lemma OfAppended(items: seq<Item>, it: Item, account: string)
    ensures Of(items + [it], account) == Of(items, account).Added(it, account)
  {
    assert (items + [it])[..|items|] == items;
  }

  lemma {:induction false} OfWithout(items: seq<Item>, removed: string, account: string)
    ensures Of(Without(items, removed), account) == if account == removed then NoCopy else Of(items, account)
  {
    if items != [] {
      var front, last := items[..|items| - 1], items[|items| - 1];
      OfWithout(front, removed, account);
      if last.account != removed {
        OfAppended(Without(front, removed), last, account);
      } else {
        assert Without(items, removed) == Without(front, removed);
      }
    }
  }

  lemma {:induction false} OfPresent(items: seq<Item>, k: nat)
    requires k < |items|
    ensures Of(items, items[k].account) != NoCopy
  {
    if k < |items| - 1 {
      OfPresent(items[..|items| - 1], k);
    }
  }

  // ----- what legal writes keep --------------------------------------------------------------

  /** The data of an account is in the canonical or in the staging service. */
  ghost predicate Holds(s: State, account: string, data: seq<Byte>) {
    (exists it :: it in s.canonical && it.account == account && it.data == data)
    || (exists it :: it in s.staging && it.account == account && it.data == data)
  }

  lemma PhaseHolds(s: State, account: string)
    requires var p := PhaseIn(s, account); !p.Stuck? && !p.Absent?
    ensures Holds(s, account, PhaseIn(s, account).data)
  {
    OfMembers(s.canonical, account);
    OfMembers(s.staging, account);
    if Of(s.canonical, account).Copy? {
      assert Of(s.canonical, account).Has(Of(s.canonical, account).last);
    } else {
      assert Of(s.staging, account).Has(Of(s.staging, account).last);
    }
  }

  /** The account has the data it had, in one of the services, after so many writes. */
  ghost predicate Kept(first: State, s: State, account: string, writes: nat) {
    var was, now := PhaseIn(first, account), PhaseIn(s, account);
    && Rank(was) == Rank(now) + writes
    && (was.Stuck? <==> now.Stuck?) && (was.Absent? <==> now.Absent?)
    && (was.Stuck? ==> Untouched(first, s, account))
    && (!was.Stuck? && !was.Absent? ==> now.data == was.data)
  }

  ghost predicate AllKept(first: State, s: State, writes: multiset<string>) {
    forall account :: Kept(first, s, account, writes[account])
  }

  lemma OthersTrans(s: State, t: State, u: State, account: string)
    requires OthersUntouched(s, t, account) && OthersUntouched(t, u, account)
    ensures OthersUntouched(s, u, account)
  {
    forall other | other != account ensures Untouched(s, u, other) {
      assert Untouched(s, t, other) && Untouched(t, u, other);
    }
  }

  lemma NothingWritten(s: State)
    ensures AllKept(s, s, multiset{})
  {
  }

  /** One more legal write keeps every account's data, and is counted for the one account it concerns. */
  lemma KeptStep(first: State, s: State, t: State, writes: multiset<string>, account: string)
    requires AllKept(first, s, writes) && LegalWrite(s, t, account)
    ensures AllKept(first, t, writes + multiset{account})
  {
    forall other ensures Kept(first, t, other, (writes + multiset{account})[other]) {
      assert Kept(first, s, other, writes[other]);
      if other != account { assert Untouched(s, t, other); }
    }
  }

  /**
   Nothing is lost, at any point of any run and across any number of stopped runs: an account's data is
   in one of the two services, unresolved accounts are exactly as they were, and no account has been
   written to more than four times.
   */
  lemma NothingIsLost(first: State, s: State, writes: multiset<string>, account: string)
    requires AllKept(first, s, writes)
    ensures var was := PhaseIn(first, account);
      && writes[account] <= 4
      && (was.Stuck? ==> Untouched(first, s, account) && writes[account] == 0)
      && (!was.Stuck? && !was.Absent? ==> Holds(s, account, was.data))
  {
    assert Kept(first, s, account, writes[account]);
    if !PhaseIn(first, account).Stuck? && !PhaseIn(first, account).Absent? { PhaseHolds(s, account); }
  }

  // ----- the store --------------------------------------------------------------------------

  datatype Place = Canonical | Staging

  function Added(s: State, place: Place, it: Item): State {
    var added := it.(accessibility := AfterFirstUnlockThisDeviceOnly);
    if place == Canonical then State(s.canonical + [added], s.staging) else State(s.canonical, s.staging + [added])
  }

  function Removed(s: State, place: Place, account: string): State {
    if place == Canonical then State(Without(s.canonical, account), s.staging) else State(s.canonical, Without(s.staging, account))
  }

  /** The two keychain services of one secure store. The process is stopped after `budget` store operations. */
  class Services {
    var canonical: seq<Item>
    var staging: seq<Item>
    var budget: nat
    /** What the store held at first, and the account of every write since. */
    ghost var first: State
    ghost var writes: multiset<string>

    function View(): State
      reads this
    {
      State(canonical, staging)
    }

    ghost predicate Valid()
      reads this
    {
      AllKept(first, View(), writes)
    }

    function In(place: Place): seq<Item>
      reads this
    {
      if place == Canonical then canonical else staging
    }

    constructor (canonical: seq<Item>, staging: seq<Item>, budget: nat)
      ensures Valid() && View() == State(canonical, staging) && this.budget == budget && first == View()
    {
      this.canonical, this.staging, this.budget := canonical, staging, budget;
      first, writes := State(canonical, staging), multiset{};
      NothingWritten(State(canonical, staging));
    }

    method Items(place: Place) returns (r: Result<seq<Item>, MigrationError>)
      modifies this`budget
      ensures r.Ok? ==> r.value == In(place)
      ensures r.Err? ==> r.error == Stopped && budget == 0
      ensures old(budget) <= budget + 1
    {
      if budget == 0 { return Err(Stopped); }
      budget := budget - 1;
      r := Ok(In(place));
    }

    /** Adds under the target class, whatever class the item carries; a second copy of an account is refused. */
    method Add(it: Item, place: Place) returns (r: Result<(), MigrationError>)
      modifies this
      ensures r.Ok? ==> View() == Added(old(View()), place, it) && writes == old(writes) + multiset{it.account}
      ensures first == old(first)
      ensures r.Err? ==> View() == old(View()) && writes == old(writes)
      ensures r.Err? && Of(old(In(place)), it.account) == NoCopy ==> r.error == Stopped && budget == 0
      ensures old(budget) <= budget + 1
    {
      if budget == 0 { return Err(Stopped); }
      budget := budget - 1;
      if Of(In(place), it.account) != NoCopy { return Err(KeychainFailure); }
      var added := it.(accessibility := AfterFirstUnlockThisDeviceOnly);
      if place == Canonical { canonical := canonical + [added]; } else { staging := staging + [added]; }
      writes := writes + multiset{it.account};
      r := Ok(());
    }

    method Delete(place: Place, account: string) returns (r: Result<(), MigrationError>)
      modifies this
      ensures r.Ok? ==> View() == Removed(old(View()), place, account) && writes == old(writes) + multiset{account}
      ensures first == old(first)
      ensures r.Err? ==> r.error == Stopped && budget == 0 && View() == old(View()) && writes == old(writes)
      ensures old(budget) <= budget + 1
    {
      if budget == 0 { return Err(Stopped); }
      budget := budget - 1;
      if place == Canonical { canonical := Without(canonical, account); } else { staging := Without(staging, account); }
      writes := writes + multiset{account};
      r := Ok(());
    }
  }

  // ----- one account, step by step ------------------------------------------------------------

  function AsCopies(it: Option<Item>): Copies { if it.Some? then One(it.value) else NoCopy }

  /** What `verify` asks of the copies of an account: one, under the target class, with the expected data. */
  predicate Verified(expected: Item, copies: Copies) {
    copies.Single() && copies.last.accessibility == AfterFirstUnlockThisDeviceOnly && copies.last.data == expected.data
  }

  function CopiesIn(s: State, place: Place, account: string): Copies {
    if place == Canonical then Of(s.canonical, account) else Of(s.staging, account)
  }

  lemma AddedCopies(s: State, it: Item, place: Place, account: string)
    ensures var t := Added(s, place, it);
      && CopiesIn(t, place, account)
         == CopiesIn(s, place, account).Added(it.(accessibility := AfterFirstUnlockThisDeviceOnly), account)
      && CopiesIn(t, Other(place), account) == CopiesIn(s, Other(place), account)
  {
    var added := it.(accessibility := AfterFirstUnlockThisDeviceOnly);
    if place == Canonical { OfAppended(s.canonical, added, account); } else { OfAppended(s.staging, added, account); }
  }

  lemma RemovedCopies(s: State, removed: string, place: Place, account: string)
    ensures var t := Removed(s, place, removed);
      && CopiesIn(t, place, account) == (if account == removed then NoCopy else CopiesIn(s, place, account))
      && CopiesIn(t, Other(place), account) == CopiesIn(s, Other(place), account)
  {
    if place == Canonical { OfWithout(s.canonical, removed, account); } else { OfWithout(s.staging, removed, account); }
  }

  function Other(place: Place): Place { if place == Canonical then Staging else Canonical }

  lemma PhaseByCopies(s: State, account: string)
    ensures PhaseIn(s, account) == PhaseOf(CopiesIn(s, Canonical, account), CopiesIn(s, Staging, account))
  {
  }

  lemma AddIsLegal(s: State, it: Item, place: Place, t: State)
    requires t == Added(s, place, it)
    requires if place == Canonical then PhaseIn(s, it.account) == Moved(it.data) else PhaseIn(s, it.account) == Legacy(it.data)
    ensures LegalWrite(s, t, it.account)
    ensures PhaseIn(t, it.account) == if place == Canonical then Restored(it.data) else Copied(it.data)
    ensures Verified(it, CopiesIn(t, place, it.account))
  {
    forall other | other != it.account ensures Untouched(s, t, other) { AddedCopies(s, it, place, other); }
    AddedPhase(s, it, place, t);
  }

  lemma AddedPhase(s: State, it: Item, place: Place, t: State)
    requires t == Added(s, place, it)
    requires if place == Canonical then PhaseIn(s, it.account) == Moved(it.data) else PhaseIn(s, it.account) == Legacy(it.data)
    ensures PhaseIn(t, it.account) == if place == Canonical then Restored(it.data) else Copied(it.data)
    ensures Verified(it, CopiesIn(t, place, it.account))
  {
    var added := it.(accessibility := AfterFirstUnlockThisDeviceOnly);
    PhaseAfterAdd(Of(s.canonical, it.account), Of(s.staging, it.account), it, place);
    if place == Canonical { OfAppended(s.canonical, added, it.account); } else { OfAppended(s.staging, added, it.account); }
  }

  lemma PhaseAfterAdd(canonical: Copies, staging: Copies, it: Item, place: Place)
    requires PhaseOf(canonical, staging) == if place == Canonical then Moved(it.data) else Legacy(it.data)
    ensures var added := it.(accessibility := AfterFirstUnlockThisDeviceOnly);
      if place == Canonical
      then canonical == NoCopy && PhaseOf(One(added), staging) == Restored(it.data)
      else staging == NoCopy && PhaseOf(canonical, One(added)) == Copied(it.data)
  {
  }

  lemma DeleteIsLegal(s: State, account: string, place: Place, t: State)
    requires t == Removed(s, place, account)
    requires if place == Canonical then PhaseIn(s, account).Copied? else PhaseIn(s, account).Restored?
    ensures LegalWrite(s, t, account)
    ensures PhaseIn(t, account) == if place == Canonical then Moved(PhaseIn(s, account).data) else Settled(PhaseIn(s, account).data)
  {
    forall other | other != account ensures Untouched(s, t, other) { RemovedCopies(s, account, place, other); }
    RemovedCopies(s, account, place, account);
    PhaseByCopies(s, account);
    PhaseByCopies(t, account);
    PhaseAfterDelete(CopiesIn(s, Canonical, account), CopiesIn(s, Staging, account), place);
  }

  lemma PhaseAfterDelete(canonical: Copies, staging: Copies, place: Place)
    requires if place == Canonical then PhaseOf(canonical, staging).Copied? else PhaseOf(canonical, staging).Restored?
    ensures place == Canonical ==> PhaseOf(NoCopy, staging) == Moved(PhaseOf(canonical, staging).data)
    ensures place == Staging ==> PhaseOf(canonical, NoCopy) == Settled(PhaseOf(canonical, staging).data)
  {
  }

  /** The dictionary holds the one copy of each account. */
  ghost predicate Indexes(items: seq<Item>, index: map<string, Item>) {
    forall account :: Of(items, account) == if account in index then One(index[account]) else NoCopy
  }

  lemma IndexStep(items: seq<Item>, it: Item, index: map<string, Item>)
    requires Indexes(items, index)
    ensures it.account !in index ==> Indexes(items + [it], index[it.account := it])
    ensures it.account in index ==> Of(items + [it], it.account).Several()
  {
    OfAppended(items, it, it.account);
    if it.account !in index {
      var longer := index[it.account := it];
      forall account ensures Of(items + [it], account) == if account in longer then One(longer[account]) else NoCopy {
        OfAppended(items, it, account);
        assert Of(items, account) == if account in index then One(index[account]) else NoCopy;
      }
    }
  }

  lemma {:induction false} PrefixOfCopies(items: seq<Item>, k: nat, account: string)
    requires k <= |items|
    ensures Of(items[..k], account).Several() ==> Of(items, account).Several()
    ensures Of(items[..k], account).Copy? ==> Of(items, account).Copy?
    decreases |items|
  {
    if k < |items| {
      PrefixOfCopies(items[..|items| - 1], k, account);
      assert items[..|items| - 1][..k] == items[..k];
    } else {
      assert items[..k] == items;
    }
  }

  class Migrator {
    const store: Services
    /** The completion flag of this service and version. */
    var complete: bool

    constructor (store: Services)
      ensures this.store == store && !complete
    {
      this.store := store;
      complete := false;
    }

    /** Every account still has its data, and only this one may have moved on. */
    twostate predicate Advanced(account: string)
      reads this, store
    {
      store.Valid() && store.first == old(store.first) && OthersUntouched(old(store.View()), store.View(), account)
    }

    /** A dictionary by account, or the first account that occurs twice. */
    method IndexedItems(items: seq<Item>) returns (r: Result<map<string, Item>, MigrationError>)
      ensures r.Ok? ==> Indexes(items, r.value)
      ensures r.Err? ==> r.error.DuplicateAccount? && Of(items, r.error.account).Several()
    {
      var index: map<string, Item> := map[];
      var k := 0;
      while k < |items|
        invariant k <= |items|
        invariant Indexes(items[..k], index)
      {
        IndexStep(items[..k], items[k], index);
        assert items[..k + 1] == items[..k] + [items[k]];
        if items[k].account in index {
          PrefixOfCopies(items, k + 1, items[k].account);
          return Err(DuplicateAccount(items[k].account));
        }
        index := index[items[k].account := items[k]];
        k := k + 1;
      }
      assert items[..k] == items;
      r := Ok(index);
    }

    method Verify(expected: Item, place: Place) returns (r: Result<(), MigrationError>)
      modifies store`budget
      ensures r.Ok? ==> Verified(expected, CopiesIn(store.View(), place, expected.account))
      ensures r.Err? && Verified(expected, CopiesIn(store.View(), place, expected.account)) ==> r.error == Stopped && store.budget == 0
      ensures old(store.budget) <= store.budget + 1
    {
      var items := store.Items(place);
      if items.Err? { return Err(items.error); }
      var matches := Of(items.value, expected.account);
      if !matches.Single() { return Err(ConflictingCopies(expected.account)); }
      if matches.last.accessibility != AfterFirstUnlockThisDeviceOnly {
        return Err(UnexpectedAccessibility(expected.account, matches.last.accessibility));
      }
      if matches.last.data != expected.data { return Err(ConflictingCopies(expected.account)); }
      r := Ok(());
    }

    /** The last write: the staged copy goes. */
    method DropStaged(account: string) returns (r: Result<(), MigrationError>)
      requires store.Valid() && PhaseIn(store.View(), account).Restored?
      modifies store
      ensures Advanced(account)
      ensures r.Ok? ==> Finished(PhaseIn(store.View(), account))
      ensures r.Err? ==> r.error == Stopped && store.budget == 0
      ensures old(store.budget) <= store.budget + 1
    {
      ghost var before := store.View();
      r := store.Delete(Staging, account);
      if r.Ok? {
        DeleteIsLegal(before, account, Staging, store.View());
        KeptStep(store.first, before, store.View(), old(store.writes), account);
      }
    }

    /** The phase an add starts from, and the phase it leads to. */
    ghost predicate CanAdd(it: Item, place: Place)
      reads this, store
    {
      PhaseIn(store.View(), it.account) == if place == Canonical then Moved(it.data) else Legacy(it.data)
    }

    method AddCopy(it: Item, place: Place) returns (r: Result<(), MigrationError>)
      requires store.Valid() && CanAdd(it, place)
      modifies store
      ensures Advanced(it.account)
      ensures r.Ok? ==> PhaseIn(store.View(), it.account) == if place == Canonical then Restored(it.data) else Copied(it.data)
      ensures r.Ok? ==> Verified(it, CopiesIn(store.View(), place, it.account))
      ensures r.Err? ==> r.error == Stopped && store.budget == 0
      ensures old(store.budget) <= store.budget + 1
    {
      ghost var before := store.View();
      assert CopiesIn(before, place, it.account) == NoCopy;
      r := store.Add(it, place);
      if r.Ok? {
        AddIsLegal(before, it, place, store.View());
        KeptStep(store.first, before, store.View(), old(store.writes), it.account);
      }
    }

    /** Adds a copy and reads it back: the legacy item into staging, or the data that only staging holds back into place. */
    method AddAndVerify(it: Item, place: Place) returns (r: Result<(), MigrationError>)
      requires store.Valid() && CanAdd(it, place)
      modifies store
      ensures Advanced(it.account)
      ensures r.Ok? ==> PhaseIn(store.View(), it.account) == if place == Canonical then Restored(it.data) else Copied(it.data)
      ensures r.Err? ==> r.error == Stopped && store.budget == 0
      ensures old(store.budget) <= store.budget + 2
    {
      r := AddCopy(it, place);
      if r.Ok? {
        r := Verify(it, place);
      }
    }

    /** The canonical copy goes, once a staged one with the same data is there. */
    method DropCanonical(account: string) returns (r: Result<(), MigrationError>)
      requires store.Valid() && PhaseIn(store.View(), account).Copied?
      modifies store
      ensures Advanced(account)
      ensures r.Ok? ==> PhaseIn(store.View(), account) == Moved(PhaseIn(old(store.View()), account).data)
      ensures r.Err? ==> r.error == Stopped && store.budget == 0
      ensures old(store.budget) <= store.budget + 1
    {
      ghost var before := store.View();
      r := store.Delete(Canonical, account);
      if r.Ok? {
        DeleteIsLegal(before, account, Canonical, store.View());
        KeptStep(store.first, before, store.View(), old(store.writes), account);
      }
    }

    /** The two writes that finish an account whose data is in staging only. */
    method Restore(account: string, it: Item) returns (r: Result<(), MigrationError>)
      requires store.Valid() && it.account == account && PhaseIn(store.View(), account) == Moved(it.data)
      modifies store
      ensures Advanced(account)
      ensures r.Ok? ==> Finished(PhaseIn(store.View(), account))
      ensures r.Err? ==> r.error == Stopped && store.budget == 0
      ensures old(store.budget) <= store.budget + 3
    {
      r := AddAndVerify(it, Canonical);
      if r.Ok? {
        ghost var middle := store.View();
        r := DropStaged(account);
        OthersTrans(old(store.View()), middle, store.View(), account);
      }
    }

    /** The three writes that finish an account that has been copied. */
    method Rewrite(account: string, canonical: Item) returns (r: Result<(), MigrationError>)
      requires store.Valid() && canonical.account == account && PhaseIn(store.View(), account) == Copied(canonical.data)
      modifies store
      ensures Advanced(account)
      ensures r.Ok? ==> Finished(PhaseIn(store.View(), account))
      ensures r.Err? ==> r.error == Stopped && store.budget == 0
      ensures old(store.budget) <= store.budget + 4
    {
      r := DropCanonical(account);
      if r.Ok? {
        ghost var middle := store.View();
        r := Restore(account, canonical);
        OthersTrans(old(store.View()), middle, store.View(), account);
      }
    }

    /** A legacy account: copy it into staging unless a staged copy is there, then rewrite it. */
    method MigrateLegacy(account: string, canonical: Item, staged: bool) returns (r: Result<(), MigrationError>)
      requires store.Valid() && canonical.account == account
      requires PhaseIn(store.View(), account) == if staged then Copied(canonical.data) else Legacy(canonical.data)
      modifies store
      ensures Advanced(account)
      ensures r.Ok? ==> Finished(PhaseIn(store.View(), account))
      ensures r.Err? ==> r.error == Stopped && store.budget == 0
      ensures old(store.budget) <= store.budget + 6
    {
      if staged {
        r := Rewrite(account, canonical);
      } else {
        r := AddAndVerify(canonical, Staging);
        if r.Ok? {
            ghost var middle := store.View();
          r := Rewrite(account, canonical);
          OthersTrans(old(store.View()), middle, store.View(), account);
        }
      }
    }

    /** The account's copies, as the dictionaries hold them. */
    ghost predicate Current(account: string, canonical: Option<Item>, staged: Option<Item>)
      reads this, store
    {
      && AsCopies(canonical) == Of(store.canonical, account) && AsCopies(staged) == Of(store.staging, account)
      && (canonical.Some? ==> canonical.value.account == account)
      && (staged.Some? ==> staged.value.account == account)
    }

    method Migrate(account: string, canonical: Option<Item>, staged: Option<Item>) returns (r: Result<bool, MigrationError>)
      requires store.Valid() && Current(account, canonical, staged)
      modifies store
      ensures Advanced(account)
      ensures r.Ok? ==> Finished(PhaseIn(store.View(), account))
      ensures r.Ok? ==> (r.value <==> Rank(PhaseIn(old(store.View()), account)) >= 2)
      ensures r == Err(Stopped) ==> store.budget == 0 && !PhaseIn(old(store.View()), account).Stuck?
      ensures r.Err? && r.error != Stopped ==>
        && PhaseIn(old(store.View()), account).Stuck? && store.View() == old(store.View())
        && (r.error.ConflictingCopies? || r.error.UnexpectedAccessibility?) && r.error.account == account
      ensures old(store.budget) <= store.budget + 6
    {
      if staged.Some? && staged.value.accessibility != AfterFirstUnlockThisDeviceOnly {
        return Err(UnexpectedAccessibility(account, staged.value.accessibility));
      }
      if canonical.None? {
        if staged.None? { return Ok(false); }
        var restored := Restore(account, staged.value);
        return if restored.Err? then Err(restored.error) else Ok(true);
      }
      if canonical.value.accessibility == AfterFirstUnlockThisDeviceOnly {
        if staged.None? { return Ok(false); }
        if canonical.value.data != staged.value.data { return Err(ConflictingCopies(account)); }
        var dropped := DropStaged(account);
        return if dropped.Err? then Err(dropped.error) else Ok(false);
      }
      if canonical.value.accessibility != AfterFirstUnlock {
        return Err(UnexpectedAccessibility(account, canonical.value.accessibility));
      }
      if staged.Some? && canonical.value.data != staged.value.data { return Err(ConflictingCopies(account)); }
      var migrated := MigrateLegacy(account, canonical.value, staged.Some?);
      r := if migrated.Err? then Err(migrated.error) else Ok(true);
    }

    /** Migrates every account of the service, in order, then records completion. */
    method EnsureFirstUnlockThisDeviceOnly(service: string) returns (r: Result<nat, MigrationError>)
      requires store.Valid()
      modifies this, store
      ensures store.Valid() && store.first == old(store.first)
      ensures service !in ALLOWED_SERVICES <==> r == Err(InvalidService)
      ensures service in ALLOWED_SERVICES && old(complete) ==> r == Ok(0)
      ensures service !in ALLOWED_SERVICES || old(complete) ==> store.View() == old(store.View())
      ensures r.Ok? && !old(complete) ==> complete && AllFinished(store.View())
      ensures r.Ok? && !old(complete) ==> r.value == MigratedCount(old(store.View()))
      ensures r.Err? ==> complete == old(complete)
      ensures r.Err? && r.error != Stopped && r.error != InvalidService ==> AnyStuck(old(store.View()))
      ensures r.Err? && r.error.DuplicateAccount? ==> store.View() == old(store.View())
      ensures r == Err(Stopped) ==> old(store.budget) <= 2 + 6 * |Accounts(old(store.View()))|
    {
      if service !in ALLOWED_SERVICES { return Err(InvalidService); }
      if complete { return Ok(0); }
      ghost var start := store.View();
      var canonicalItems := store.Items(Canonical);
      if canonicalItems.Err? { return Err(canonicalItems.error); }
      var canonical := IndexedItems(canonicalItems.value);
      if canonical.Err? {
        assert PhaseIn(start, canonical.error.account).Stuck?;
        return Err(canonical.error);
      }
      var stagedItems := store.Items(Staging);
      if stagedItems.Err? { return Err(stagedItems.error); }
      var staged := IndexedItems(stagedItems.value);
      if staged.Err? {
        assert PhaseIn(start, staged.error.account).Stuck?;
        return Err(staged.error);
      }
      var accounts := Accounts(State(canonicalItems.value, stagedItems.value));
      EachAccountOnce(start);
      var loop := Start(State(canonicalItems.value, stagedItems.value), canonical.value, staged.value);
      var failure, migrated := MigrateAll(loop, accounts, Phases(start, accounts));
      if failure.Some? { return Err(failure.value); }
      EveryAccountListed(loop, accounts, store.View());
      complete := true;
      r := Ok(migrated);
    }

    /** The account at one position of the list, from its dictionary entries. */
    method MigrateOne(start: Start, accounts: seq<string>, k: nat, ghost phase: Phase)
      returns (r: Result<bool, MigrationError>)
      requires store.Valid() && k < |accounts| && accounts[k] !in accounts[..k]
      requires MigratedSoFar(start, store.View(), accounts, k) && phase == PhaseIn(start.state, accounts[k])
      modifies store
      ensures store.Valid() && store.first == old(store.first)
      ensures r.Ok? ==> MigratedSoFar(start, store.View(), accounts, k + 1) && (r.value <==> Rank(phase) >= 2)
      ensures r.Err? ==> Failed(start.state, r.error)
      ensures r == Err(Stopped) ==> store.budget == 0
      ensures old(store.budget) <= store.budget + 6
    {
      var account := accounts[k];
      var c := if account in start.canonical then Some(start.canonical[account]) else None;
      var g := if account in start.staged then Some(start.staged[account]) else None;
      StartIsIndexed(start, store.View(), accounts, k);
      DictionariesAreCurrent(start.state.canonical, account, start.canonical);
      DictionariesAreCurrent(start.state.staging, account, start.staged);
      ghost var before := store.View();
      MigratedAccounts(start, before, accounts, k, account);
      r := Migrate(account, c, g);
      if r.Err? {
        assert r.error != Stopped ==> PhaseIn(start.state, account).Stuck?;
      } else {
        assert Finishes(before, store.View(), account);
      }
    }

    /** The loop over the accounts, up to the first that throws. */
    method MigrateAll(start: Start, accounts: seq<string>, ghost phases: seq<Phase>)
      returns (failure: Option<MigrationError>, migrated: nat)
      requires store.Valid() && EachOnce(accounts) && phases == Phases(start.state, accounts)
      requires MigratedSoFar(start, store.View(), accounts, 0)
      modifies store
      ensures store.Valid() && store.first == old(store.first)
      ensures failure.None? ==> MigratedSoFar(start, store.View(), accounts, |accounts|) && migrated == ToWrite(phases, |accounts|)
      ensures failure.Some? ==> Failed(start.state, failure.value)
      ensures failure == Some(Stopped) ==> old(store.budget) <= 6 * |accounts|
    {
      failure, migrated := None, 0;
      var k := 0;
      while k < |accounts| && failure.None?
        invariant k <= |accounts|
        invariant store.Valid() && store.first == old(store.first)
        invariant failure.None? ==> MigratedSoFar(start, store.View(), accounts, k) && migrated == ToWrite(phases, k)
        invariant failure.None? ==> old(store.budget) <= store.budget + 6 * k
        invariant failure.Some? ==> Failed(start.state, failure.value)
        invariant failure == Some(Stopped) ==> old(store.budget) <= 6 * |accounts|
      {
        assert accounts[k] !in accounts[..k];
        var one := MigrateOne(start, accounts, k, phases[k]);
        if one.Err? {
          failure := Some(one.error);
        } else if one.value {
          migrated := migrated + 1;
        }
        k := k + 1;
      }
    }
  }

  /** Why the loop over the accounts ends early: it was stopped, or some account is left for the user. */
  ghost predicate Failed(start: State, e: MigrationError) {
    e == Stopped || (!e.DuplicateAccount? && !e.InvalidService? && AnyStuck(start))
  }

  lemma AccountsDistinct(s: State)
    ensures Distinct(Accounts(s))
  {
    SortedIsDistinct(Accounts(s));
  }

  ghost predicate EachOnce(accounts: seq<string>) {
    forall k :: 0 <= k < |accounts| ==> accounts[k] !in accounts[..k]
  }

  lemma EachAccountOnce(s: State)
    ensures EachOnce(Accounts(s))
  {
    AccountsDistinct(s);
  }

  ghost predicate AllFinished(s: State) { forall account :: Finished(PhaseIn(s, account)) }

  function AccountsOf(items: seq<Item>): (r: seq<string>)
    ensures forall account :: account in r <==> exists it :: it in items && it.account == account
  {
    if items == [] then []
    else
      assert items == items[..|items| - 1] + [items[|items| - 1]];
      AccountsOf(items[..|items| - 1]) + [items[|items| - 1].account]
  }

  /** Every account of either service, once, in order. */
  function Accounts(s: State): (r: seq<string>)
    ensures forall account :: account in r <==> account in AccountsOf(s.canonical) || account in AccountsOf(s.staging)
  {
    SortedDistinct(AccountsOf(s.canonical) + AccountsOf(s.staging))
  }

  /** How many accounts a run from here writes the canonical copy of. */
  ghost function MigratedCount(s: State): nat {
    ToWrite(Phases(s, Accounts(s)), |Accounts(s)|)
  }

  lemma {:induction false} UnlistedIsAbsent(items: seq<Item>, account: string)
    requires account !in AccountsOf(items)
    ensures Of(items, account) == NoCopy
  {
    if items != [] {
      UnlistedIsAbsent(items[..|items| - 1], account);
    }
  }

  /** How many of the first `n` phases still have the canonical copy to write. */
  function ToWrite(phases: seq<Phase>, n: nat): nat
    requires n <= |phases|
  {
    if n == 0 then 0 else ToWrite(phases, n - 1) + (if Rank(phases[n - 1]) >= 2 then 1 else 0)
  }

  function Phases(s: State, accounts: seq<string>): (r: seq<Phase>)
    ensures |r| == |accounts| && forall k :: 0 <= k < |accounts| ==> r[k] == PhaseIn(s, accounts[k])
  {
    seq(|accounts|, k requires 0 <= k < |accounts| => PhaseIn(s, accounts[k]))
  }

  /** The state after the first `k` accounts, each finished in its turn without touching any other. */
  ghost predicate MigratedSoFar(start: Start, s: State, accounts: seq<string>, k: nat)
    requires k <= |accounts|
    decreases k
  {
    if k == 0 then s == start.state && Indexes(s.canonical, start.canonical) && Indexes(s.staging, start.staged)
    else
      var account := accounts[k - 1];
      exists before :: Finishes(before, s, account) && MigratedSoFar(start, before, accounts, k - 1)
  }

  /** What the loop over the accounts starts from: the stored state, and the two dictionaries read from it. */
  datatype Start = Start(state: State, canonical: map<string, Item>, staged: map<string, Item>)

  lemma {:induction false} StartIsIndexed(start: Start, s: State, accounts: seq<string>, k: nat)
    requires k <= |accounts| && MigratedSoFar(start, s, accounts, k)
    ensures Indexes(start.state.canonical, start.canonical) && Indexes(start.state.staging, start.staged)
    decreases k
  {
    if k > 0 {
      var before :| Finishes(before, s, accounts[k - 1]) && MigratedSoFar(start, before, accounts, k - 1);
      StartIsIndexed(start, before, accounts, k - 1);
    }
  }

  ghost predicate Finishes(before: State, s: State, account: string) {
    OthersUntouched(before, s, account) && Finished(PhaseIn(s, account))
  }

  lemma {:induction false} MigratedAccounts(start: Start, s: State, accounts: seq<string>, k: nat, account: string)
    requires k <= |accounts| && MigratedSoFar(start, s, accounts, k)
    ensures account in accounts[..k] ==> Finished(PhaseIn(s, account))
    ensures account !in accounts[..k] ==> Untouched(start.state, s, account)
    decreases k
  {
    if k > 0 {
      var before :| Finishes(before, s, accounts[k - 1]) && MigratedSoFar(start, before, accounts, k - 1);
      MigratedAccounts(start, before, accounts, k - 1, account);
      assert accounts[..k] == accounts[..k - 1] + [accounts[k - 1]];
      if account != accounts[k - 1] { assert Untouched(before, s, account); }
    }
  }

  lemma EveryAccountListed(start: Start, accounts: seq<string>, s: State)
    requires accounts == Accounts(start.state)
    requires MigratedSoFar(start, s, accounts, |accounts|)
    ensures AllFinished(s)
  {
    forall account ensures Finished(PhaseIn(s, account)) {
      MigratedAccounts(start, s, accounts, |accounts|, account);
      assert accounts[..|accounts|] == accounts;
      if account !in accounts {
        UnlistedIsAbsent(start.state.canonical, account);
        UnlistedIsAbsent(start.state.staging, account);
      }
    }
  }

  lemma DictionariesAreCurrent(items: seq<Item>, account: string, index: map<string, Item>)
    requires Indexes(items, index)
    ensures account in index ==> Of(items, account) == One(index[account]) && index[account].account == account
    ensures account !in index ==> Of(items, account) == NoCopy
  {
    OfMembers(items, account);
    if account in index {
      assert Of(items, account).Has(index[account]);
    }
  }

  /**
   A run that finishes leaves every account settled: one canonical copy, of the target class, with the
   data it had before the first run, and no staged copy. Then there was no unresolved account to begin
   with, and each account was written to exactly as often as it was behind, over all the runs there were.
   */
  lemma FinishedRunsKeepData(first: State, s: State, writes: multiset<string>, account: string)
    requires AllKept(first, s, writes) && AllFinished(s)
    ensures var was := PhaseIn(first, account);
      && !was.Stuck?
      && writes[account] == Rank(was) <= 4
      && (was.Absent? ==> Of(s.canonical, account) == NoCopy && Of(s.staging, account) == NoCopy)
      && (!was.Absent? ==>
            && Of(s.canonical, account).Single() && Of(s.staging, account) == NoCopy
            && Of(s.canonical, account).last.data == was.data
            && Of(s.canonical, account).last.accessibility == AfterFirstUnlockThisDeviceOnly)
  {
    assert Kept(first, s, account, writes[account]);
    assert Finished(PhaseIn(s, account));
  }

  /** One more run of a migration, in a process that lives for `life` store operations. */
  method RunAgain(migrator: Migrator, service: string, life: nat) returns (r: Result<nat, MigrationError>)
    requires migrator.store.Valid() && service in ALLOWED_SERVICES && !migrator.complete
    modifies migrator, migrator.store
    ensures migrator.store.Valid() && migrator.store.first == old(migrator.store.first)
    ensures r.Ok? ==> migrator.complete && AllFinished(migrator.store.View())
    ensures r.Err? ==> !migrator.complete
    ensures r.Err? && r.error != Stopped ==> AnyStuck(migrator.store.first)
    ensures r == Err(Stopped) ==> life <= 2 + 6 * |Accounts(migrator.store.first)|
  {
    migrator.store.budget := life;
    AccountsStay(migrator.store.first, migrator.store.View(), migrator.store.writes);
    r := migrator.EnsureFirstUnlockThisDeviceOnly(service);
  }

  /**
   A migration stopped and started again any number of times, the process living for a given number of
   store operations each time: at the end every account still has its data, and a last run that lives
   long enough finishes, unless some account was unresolved from the start.
   */
  method Rerun(migrator: Migrator, service: string, lives: seq<nat>) returns (r: Result<nat, MigrationError>)
    requires migrator.store.Valid() && service in ALLOWED_SERVICES && lives != [] && !migrator.complete
    modifies migrator, migrator.store
    ensures migrator.store.Valid() && migrator.store.first == old(migrator.store.first)
    ensures r.Ok? ==> migrator.complete && AllFinished(migrator.store.View())
    ensures r.Err? && r.error != Stopped ==> AnyStuck(migrator.store.first)
    ensures lives[|lives| - 1] > 2 + 6 * |Accounts(migrator.store.first)| ==> r != Err(Stopped)
  {
    r := RunAgain(migrator, service, lives[0]);
    var k := 1;
    while k < |lives| && r == Err(Stopped)
      invariant 1 <= k <= |lives|
      invariant migrator.store.Valid() && migrator.store.first == old(migrator.store.first)
      invariant r.Ok? ==> migrator.complete && AllFinished(migrator.store.View())
      invariant r.Err? ==> !migrator.complete
      invariant r.Err? && r.error != Stopped ==> AnyStuck(migrator.store.first)
      invariant r == Err(Stopped) ==> lives[k - 1] <= 2 + 6 * |Accounts(migrator.store.first)|
    {
      r := RunAgain(migrator, service, lives[k]);
      k := k + 1;
    }
  }

  /** The accounts there are, and those left for the user, are what they were at first. */
  lemma AccountsStay(first: State, s: State, writes: multiset<string>)
    requires AllKept(first, s, writes)
    ensures |Accounts(s)| == |Accounts(first)|
    ensures AnyStuck(s) ==> AnyStuck(first)
  {
    forall account ensures account in Accounts(s) <==> account in Accounts(first) {
      assert Kept(first, s, account, writes[account]);
      ListedIffPresent(s, account);
      ListedIffPresent(first, account);
    }
    AccountsDistinct(s);
    AccountsDistinct(first);
    SameMembersSameLength(Accounts(s), Accounts(first));
    if AnyStuck(s) {
      var account :| PhaseIn(s, account).Stuck?;
      assert Kept(first, s, account, writes[account]);
    }
  }

  lemma ListedIffPresent(s: State, account: string)
    ensures account in Accounts(s) <==> !PhaseIn(s, account).Absent?
  {
    if account !in AccountsOf(s.canonical) { UnlistedIsAbsent(s.canonical, account); } else { ListedHasCopy(s.canonical, account); }
    if account !in AccountsOf(s.staging) { UnlistedIsAbsent(s.staging, account); } else { ListedHasCopy(s.staging, account); }
  }

  lemma ListedHasCopy(items: seq<Item>, account: string)
    requires account in AccountsOf(items)
    ensures Of(items, account) != NoCopy
  {
    var it :| it in items && it.account == account;
    var k :| 0 <= k < |items| && items[k] == it;
    OfPresent(items, k);
  }

  lemma SameMembersSameLength(a: seq<string>, b: seq<string>)
    requires Distinct(a) && Distinct(b) && forall x :: x in a <==> x in b
    ensures |a| == |b|
  {
    DistinctSize(a);
    DistinctSize(b);
    assert (set x | x in a) == (set x | x in b);
  }
}
