/**
 * The in-memory side of the profile store: the list of saved profiles and the id of
 * the active one. Persistence, the stored default and the remote sync calls are left out; what the
 * store reads back from them is a parameter.
 */
module ProfileStore {
  import opened Wrappers
  import opened Lists
  import opened ProfileModels

  type ProfileId = nat

  /** Some profile in the list has the id. */
  predicate Has(ps: seq<UserProfile>, id: ProfileId) {
    exists k :: 0 <= k < |ps| && ps[k].id == id
  }

  /** The active id is unset or names a profile in the list. */
  predicate ActiveInList(ps: seq<UserProfile>, active: Option<ProfileId>) {
    active.None? || Has(ps, active.value)
  }

  /** `profiles.first?.id`. */
  function FirstId(ps: seq<UserProfile>): (r: Option<ProfileId>)
    ensures ActiveInList(ps, r) && (r.None? <==> ps == [])
  {
    if ps == [] then None else Some(ps[0].id)
  }

  function ProfileKey(p: UserProfile): ProfileId {
    p.id
  }

  /** `profiles.firstIndex(where: { $0.id == id })`. */
  function IndexOf(ps: seq<UserProfile>, id: ProfileId): Option<nat> {
    IndexOfKey(ps, ProfileKey, id)
  }

  /** `update`'s list: the first profile with the same id replaced, when there is one. */
  function Replaced(ps: seq<UserProfile>, p: UserProfile): seq<UserProfile> {
    match IndexOf(ps, p.id)
    case None => ps
    case Some(i) => ps[i := p]
  }

  /** `removeAll { $0.id == id }`. */
  function WithoutId(ps: seq<UserProfile>, id: ProfileId): seq<UserProfile> {
    WithoutKey(ps, ProfileKey, id)
  }

  /**
   * `syncFromRemote`'s choice: the preferred id when the remote list has it, else the previous
   * active id when the list has that, else the first remote profile.
   */
  function ChooseActive(remote: seq<UserProfile>, preferred: Option<ProfileId>, previous: Option<ProfileId>): Option<ProfileId> {
    if preferred.Some? && Has(remote, preferred.value) then preferred
    else if previous.Some? && Has(remote, previous.value) then previous
    else FirstId(remote)
  }

  /** An update keeps the length, the order and every entry but the one it replaces. */
  lemma ReplacedMeaning(ps: seq<UserProfile>, p: UserProfile)
    ensures var r := Replaced(ps, p);
      && |r| == |ps|
      && (!Has(ps, p.id) ==> r == ps)
      && (Has(ps, p.id) ==> exists i :: 0 <= i < |ps| && ps[i].id == p.id && r == ps[i := p])
      && (forall k :: 0 <= k < |ps| ==> r[k].id == ps[k].id)
  {
    match IndexOf(ps, p.id)
    case None =>
    case Some(i) =>
      assert ps[i].id == p.id && Replaced(ps, p) == ps[i := p];
  }

  /**
   * The synced active id keeps the priority — preferred, then previous, then first — and always names
   * a profile of the remote list or is unset, which happens only for an empty list.
   */
  lemma ChooseActiveMeaning(remote: seq<UserProfile>, preferred: Option<ProfileId>, previous: Option<ProfileId>)
    ensures var a := ChooseActive(remote, preferred, previous);
      && ActiveInList(remote, a)
      && (a.None? <==> remote == [])
      && (preferred.Some? && Has(remote, preferred.value) ==> a == preferred)
      && (!(preferred.Some? && Has(remote, preferred.value)) && previous.Some? && Has(remote, previous.value) ==>
            a == previous)
      && (!(preferred.Some? && Has(remote, preferred.value)) && !(previous.Some? && Has(remote, previous.value)) ==>
            a == FirstId(remote))
  {
    if remote != [] {
      assert remote[0].id == remote[0].id;
    }
  }

  /** An insertion at the front keeps a valid active id valid, and so does the active id `add` sets. */
  lemma AddKeepsActive(ps: seq<UserProfile>, active: Option<ProfileId>, p: UserProfile)
    requires ActiveInList(ps, active)
    ensures ActiveInList([p] + ps, if active.None? then Some(p.id) else active)
  {
    var r := [p] + ps;
    if active.Some? {
      var k :| 0 <= k < |ps| && ps[k].id == active.value;
      assert r[k + 1] == ps[k];
    } else {
      assert r[0] == p;
    }
  }

  /** An update keeps a valid active id valid. */
  lemma UpdateKeepsActive(ps: seq<UserProfile>, active: Option<ProfileId>, p: UserProfile)
    requires ActiveInList(ps, active)
    ensures ActiveInList(Replaced(ps, p), active)
  {
    ReplacedMeaning(ps, p);
    if active.Some? {
      var k :| 0 <= k < |ps| && ps[k].id == active.value;
      assert Replaced(ps, p)[k].id == active.value;
    }
  }

  /** A deletion leaves a valid active id valid: one to the deleted id moves to the new first profile. */
  lemma DeleteKeepsActive(ps: seq<UserProfile>, active: Option<ProfileId>, id: ProfileId)
    requires ActiveInList(ps, active)
    ensures var r := WithoutId(ps, id);
      ActiveInList(r, if active == Some(id) then FirstId(r) else active)
  {
    var r := WithoutId(ps, id);
    if active.Some? && active != Some(id) {
      var k :| 0 <= k < |ps| && ps[k].id == active.value;
      WithoutKeyMembers(ps, ProfileKey, id);
      assert ps[k] in r;
      var j :| 0 <= j < |r| && r[j] == ps[k];
    }
  }

  /** `ProfileStore`: the saved profiles, newest first as loaded, and the active id. */
  class Store {
    var profiles: seq<UserProfile>
    var activeProfileID: Option<ProfileId>

    /**
     * `init`: the profiles loaded, then the stored active id restored when it parses. `fetched` is
     * the decoded fetch (None for a failed fetch), `stored` the stored active id.
     */
    constructor(fetched: Option<seq<UserProfile>>, stored: Option<ProfileId>)
      ensures profiles == fetched.GetOr([])
      ensures activeProfileID == if stored.Some? then stored else if fetched.Some? then FirstId(fetched.value) else None
    {
      profiles, activeProfileID := [], None;
      new;
      LoadProfiles(fetched);
      RestoreActiveProfile(stored);
    }

    /** `loadProfiles` (and `refresh`): the list replaced, the active id defaulted to the first profile. */
    method LoadProfiles(fetched: Option<seq<UserProfile>>)
      modifies this
      ensures profiles == fetched.GetOr([])
      ensures activeProfileID == if old(activeProfileID).None? && fetched.Some? then FirstId(profiles) else old(activeProfileID)
    {
      if fetched.None? {
        profiles := [];
        return;
      }
      profiles := fetched.value;
      if activeProfileID.None? {
        activeProfileID := FirstId(profiles);
      }
    }

    /** `restoreActiveProfile`: a stored active id that parses replaces the current one. */
    method RestoreActiveProfile(stored: Option<ProfileId>)
      modifies this
      ensures profiles == old(profiles)
      ensures activeProfileID == if stored.Some? then stored else old(activeProfileID)
    {
      if stored.Some? {
        activeProfileID := stored;
      }
    }

    /** `add`: the profile first in the list; the active one only when none was. */
    method Add(p: UserProfile)
      modifies this
      ensures profiles == [p] + old(profiles)
      ensures activeProfileID == if old(activeProfileID).None? then Some(p.id) else old(activeProfileID)
      ensures ActiveInList(old(profiles), old(activeProfileID)) ==> ActiveInList(profiles, activeProfileID)
    {
      if ActiveInList(profiles, activeProfileID) {
        AddKeepsActive(profiles, activeProfileID, p);
      }
      profiles := [p] + profiles;
      if activeProfileID.None? {
        SetActive(Some(p.id));
      }
    }

    /** `update`: the profile with the same id replaced in place; the active id stays. */
    method Update(p: UserProfile)
      modifies this
      ensures profiles == Replaced(old(profiles), p) && activeProfileID == old(activeProfileID)
      ensures ActiveInList(old(profiles), old(activeProfileID)) ==> ActiveInList(profiles, activeProfileID)
    {
      if ActiveInList(profiles, activeProfileID) {
        UpdateKeepsActive(profiles, activeProfileID, p);
      }
      var i := IndexOf(profiles, p.id);
      if i.Some? {
        profiles := profiles[i.value := p];
      }
    }

    /** `delete(id:)`: every profile with the id removed; an active one is replaced by the first left. */
    method Delete(id: ProfileId)
      modifies this
      ensures profiles == WithoutId(old(profiles), id)
      ensures activeProfileID == if old(activeProfileID) == Some(id) then FirstId(profiles) else old(activeProfileID)
      ensures ActiveInList(old(profiles), old(activeProfileID)) ==> ActiveInList(profiles, activeProfileID)
    {
      if ActiveInList(profiles, activeProfileID) {
        DeleteKeepsActive(profiles, activeProfileID, id);
      }
      profiles := WithoutId(profiles, id);
      if activeProfileID == Some(id) {
        SetActive(FirstId(profiles));
      }
    }

    /** `setActive`: the active id set as given, known or not. */
    method SetActive(id: Option<ProfileId>)
      modifies this
      ensures profiles == old(profiles) && activeProfileID == id
    {
      activeProfileID := id;
    }

    /** `syncFromRemote`: the list becomes the remote list, and the active id is chosen in it. */
    method SyncFromRemote(remote: seq<UserProfile>, preferred: Option<ProfileId>)
      modifies this
      ensures profiles == remote
      ensures activeProfileID == ChooseActive(remote, preferred, old(activeProfileID))
      ensures ActiveInList(profiles, activeProfileID)
    {
      ChooseActiveMeaning(remote, preferred, activeProfileID);
      profiles := remote;
      if preferred.Some? && Has(remote, preferred.value) {
        SetActive(preferred);
      } else if activeProfileID.Some? && Has(remote, activeProfileID.value) {
        SetActive(activeProfileID);
      } else {
        SetActive(FirstId(remote));
      }
    }
  }
}
