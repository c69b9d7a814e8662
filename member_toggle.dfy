/**
 * The cache updater that `onMutate` hands to `setData`: it toggles one workspace
 * member on a card. If the member's public id is on the card, every member with
 * that id is filtered out; otherwise the first roster member with that id, if
 * any, is appended. The rest of the card record is copied unchanged.
 */
module MemberToggle {

  import opened Wrappers
  import opened Cards

  /** `members.some(m => m.publicId === id)` */
  function HasMember(ms: seq<Member>, id: string): (r: bool)
    ensures r <==> exists i :: 0 <= i < |ms| && ms[i].publicId == id
  {
    if ms == [] then false
    else if ms[0].publicId == id then true
    else
      var rest := HasMember(ms[1..], id);
      assert forall i :: 0 <= i < |ms| - 1 ==> ms[1..][i] == ms[i + 1];
      rest
  }

  /** `members.filter(m => m.publicId !== id)` */
  function RemoveAll(ms: seq<Member>, id: string): (r: seq<Member>)
    ensures forall i :: 0 <= i < |r| ==> r[i].publicId != id
    ensures forall m: Member :: m in r ==> m in ms
  {
    if ms == [] then []
    else
      var rest := RemoveAll(ms[1..], id);
      assert ms == [ms[0]] + ms[1..];
      if ms[0].publicId == id then rest else [ms[0]] + rest
  }

  /** `roster.find(m => m.publicId === id)`: the first roster member with that id. */
  function FindMember(roster: seq<Member>, id: string): (r: Option<Member>)
    ensures r.None? <==> !HasMember(roster, id)
    ensures r.Some? ==> exists i :: 0 <= i < |roster| && IsFirstWithId(roster, i, id) && roster[i] == r.value
  {
    if roster == [] then None
    else if roster[0].publicId == id then
      assert IsFirstWithId(roster, 0, id);
      Some(roster[0])
    else
      var rest := FindMember(roster[1..], id);
      assert rest.Some? ==> exists i :: 0 <= i < |roster| && IsFirstWithId(roster, i, id) && roster[i] == rest.value by {
        if rest.Some? {
          var i :| 0 <= i < |roster[1..]| && IsFirstWithId(roster[1..], i, id) && roster[1..][i] == rest.value;
          assert IsFirstWithId(roster, i + 1, id);
        }
      }
      rest
  }

  /** Index `i` holds the first member of `ms` whose public id is `id`. */
  ghost predicate IsFirstWithId(ms: seq<Member>, i: int, id: string) {
    0 <= i < |ms| && ms[i].publicId == id &&
    forall j :: 0 <= j < i ==> ms[j].publicId != id
  }

  /**
   * The updater's result for a present card, `{ ...old, members: newMembers }`:
   * remove when the member is assigned, otherwise append the roster's match if
   * there is one.
   */
  function Toggle(card: Card, id: string): (r: Card)
    // only `members` changes; the roster in particular is the same
    ensures r == card.(members := r.members)
    ensures Roster(r) == Roster(card)
    // afterwards the id is assigned exactly when it was not before and the roster has it
    ensures HasMember(r.members, id) <==> !HasMember(card.members, id) && HasMember(Roster(card), id)
    // removal: no member with the id remains
    ensures HasMember(card.members, id) ==> forall i :: 0 <= i < |r.members| ==> r.members[i].publicId != id
    // addition: the first roster member with the id goes at the end
    ensures !HasMember(card.members, id) ==>
      forall i :: IsFirstWithId(Roster(card), i, id) ==> r.members == card.members + [Roster(card)[i]]
    // neither on the card nor on the roster: nothing changes
    ensures !HasMember(card.members, id) && !HasMember(Roster(card), id) ==> r == card
  {
    if HasMember(card.members, id) then
      var ms := RemoveAll(card.members, id);
      assert !HasMember(ms, id);
      card.(members := ms)
    else
      match FindMember(Roster(card), id)
      case None => card
      case Some(m) =>
        var ms := card.members + [m];
        assert ms[|ms| - 1] == m;
        FirstWithIdUnique(Roster(card), id);
        card.(members := ms)
  }

  /** The updater passed to `setData`: an absent cache entry is handed back as it is. */
  function Updater(cached: Option<Card>, id: string): (r: Option<Card>)
    ensures r.None? <==> cached.None?
    ensures cached.Some? ==> r == Some(Toggle(cached.value, id))
  {
    match cached
    case None => None
    case Some(card) => Some(Toggle(card, id))
  }

  /** There is only one first position of an id. */
  lemma FirstWithIdUnique(ms: seq<Member>, id: string)
    ensures forall i, j :: IsFirstWithId(ms, i, id) && IsFirstWithId(ms, j, id) ==> i == j
  {
  }

  // ---------------------------------------------------------------------------
  // Removal keeps the others, in order

  /** `f` lists, in increasing order, positions of `ys` that spell out `xs`. */
  ghost predicate Embeds(f: seq<nat>, xs: seq<Member>, ys: seq<Member>) {
    |f| == |xs| &&
    (forall k :: 0 <= k < |f| ==> f[k] < |ys| && ys[f[k]] == xs[k]) &&
    (forall k, l :: 0 <= k < l < |f| ==> f[k] < f[l])
  }

  /**
   * `r` is `ms` with exactly the members whose id is `id` taken out: it is read off
   * `ms` at increasing positions, and that covers every position not holding `id`.
   */
  ghost predicate KeepsOthersInOrder(r: seq<Member>, ms: seq<Member>, id: string) {
    exists f :: Embeds(f, r, ms) &&
      forall j :: 0 <= j < |ms| && ms[j].publicId != id ==> j in f
  }

  /** Every index of `f` shifted one position to the right. */
  ghost function Shift(f: seq<nat>): (g: seq<nat>)
    ensures |g| == |f| && forall k :: 0 <= k < |f| ==> g[k] == f[k] + 1
  {
    seq(|f|, k requires 0 <= k < |f| => f[k] + 1)
  }

  /** An embedding into the tail of `ms` is, shifted by one, an embedding into `ms`. */
  lemma EmbedsShift(f: seq<nat>, xs: seq<Member>, ms: seq<Member>, id: string)
    requires ms != [] && Embeds(f, xs, ms[1..])
    requires forall j :: 0 <= j < |ms| - 1 && ms[1..][j].publicId != id ==> j in f
    ensures Embeds(Shift(f), xs, ms)
    ensures forall k :: 0 <= k < |f| ==> Shift(f)[k] >= 1
    ensures forall j :: 1 <= j < |ms| && ms[j].publicId != id ==> j in Shift(f)
  {
    var g := Shift(f);
    forall j | 1 <= j < |ms| && ms[j].publicId != id ensures j in g {
      assert ms[1..][j - 1] == ms[j];
      var k :| 0 <= k < |f| && f[k] == j - 1;
      assert g[k] == j;
    }
  }

  /** Putting the head of `ms` in front keeps an embedding whose positions are all past it. */
  lemma EmbedsCons(g: seq<nat>, xs: seq<Member>, ms: seq<Member>)
    requires ms != [] && Embeds(g, xs, ms)
    requires forall k :: 0 <= k < |g| ==> g[k] >= 1
    ensures Embeds([0] + g, [ms[0]] + xs, ms)
  {
  }

  /** The positions of `ms` that the filter keeps, in increasing order. */
  lemma {:induction false} KeptPositions(ms: seq<Member>, id: string) returns (f: seq<nat>)
    ensures Embeds(f, RemoveAll(ms, id), ms)
    ensures forall j :: 0 <= j < |ms| && ms[j].publicId != id ==> j in f
  {
    if ms == [] {
      f := [];
    } else {
      var rest := RemoveAll(ms[1..], id);
      var f' := KeptPositions(ms[1..], id);
      EmbedsShift(f', rest, ms, id);
      var g := Shift(f');
      if ms[0].publicId == id {
        assert RemoveAll(ms, id) == rest;
        f := g;
      } else {
        assert RemoveAll(ms, id) == [ms[0]] + rest;
        EmbedsCons(g, rest, ms);
        f := [0] + g;
        forall j | 0 <= j < |ms| && ms[j].publicId != id ensures j in f {
          if j > 0 { assert j in g; }
        }
      }
    }
  }

  lemma RemoveAllKeepsOthersInOrder(ms: seq<Member>, id: string)
    ensures KeepsOthersInOrder(RemoveAll(ms, id), ms, id)
  {
    var f := KeptPositions(ms, id);
  }

  /** Filtering drops no member whose id differs: each occurs as often as before. */
  lemma {:induction false} RemoveAllCounts(ms: seq<Member>, id: string)
    ensures forall m: Member :: m.publicId != id ==> multiset(RemoveAll(ms, id))[m] == multiset(ms)[m]
  {
    if ms != [] {
      RemoveAllCounts(ms[1..], id);
      assert ms == [ms[0]] + ms[1..];
      if ms[0].publicId != id {
        assert RemoveAll(ms, id) == [ms[0]] + RemoveAll(ms[1..], id);
      }
    }
  }

  /** Filtering a list that does not hold the id gives the list back. */
  lemma {:induction false} RemoveAllAbsent(ms: seq<Member>, id: string)
    requires !HasMember(ms, id)
    ensures RemoveAll(ms, id) == ms
  {
    if ms != [] {
      assert ms[0].publicId != id;
      assert !HasMember(ms[1..], id);
      RemoveAllAbsent(ms[1..], id);
      assert ms == [ms[0]] + ms[1..];
    }
  }

  /** Filtering distributes over concatenation. */
  lemma {:induction false} RemoveAllAppend(xs: seq<Member>, ys: seq<Member>, id: string)
    ensures RemoveAll(xs + ys, id) == RemoveAll(xs, id) + RemoveAll(ys, id)
  {
    if xs == [] {
      assert xs + ys == ys;
    } else {
      assert (xs + ys)[1..] == xs[1..] + ys;
      assert (xs + ys)[0] == xs[0];
      RemoveAllAppend(xs[1..], ys, id);
    }
  }

  /** Removal strictly shortens a list that holds the id, and never lengthens one. */
  lemma {:induction false} RemoveAllShrinks(ms: seq<Member>, id: string)
    ensures |RemoveAll(ms, id)| <= |ms|
    ensures HasMember(ms, id) ==> |RemoveAll(ms, id)| < |ms|
  {
    if ms != [] {
      RemoveAllShrinks(ms[1..], id);
      if ms[0].publicId != id {
        assert HasMember(ms, id) ==> HasMember(ms[1..], id);
      }
    }
  }

  // ---------------------------------------------------------------------------
  // Properties of Toggle

  /** Toggling an assigned member is exactly the in-order filter. */
  lemma ToggleRemovesInOrder(card: Card, id: string)
    requires HasMember(card.members, id)
    ensures !HasMember(Toggle(card, id).members, id)
    ensures |Toggle(card, id).members| < |card.members|
    ensures KeepsOthersInOrder(Toggle(card, id).members, card.members, id)
    ensures forall m: Member :: m.publicId != id ==>
      multiset(Toggle(card, id).members)[m] == multiset(card.members)[m]
  {
    RemoveAllKeepsOthersInOrder(card.members, id);
    RemoveAllCounts(card.members, id);
    RemoveAllShrinks(card.members, id);
  }

  /**
   * Toggling an unassigned roster member, then toggling it again, gives the card
   * back exactly: the second toggle filters out just the member the first appended.
   */
  lemma ToggleTwiceRestores(card: Card, id: string)
    requires !HasMember(card.members, id)
    ensures Toggle(Toggle(card, id), id) == card
  {
    var once := Toggle(card, id);
    match FindMember(Roster(card), id)
    case None =>
    case Some(m) =>
      assert once.members == card.members + [m];
      RemoveAllAppend(card.members, [m], id);
      RemoveAllAbsent(card.members, id);
      assert RemoveAll([m], id) == [];
      assert Toggle(once, id).members == card.members;
  }
}
