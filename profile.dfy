/**
 * The profile page (frontend/src/pages/Profile.jsx): the counts of journal
 * entries and breathing sessions, and renaming the stored user.
 * `window.location.reload()` is the flag `reloaded`.
 */
module Profile {
  import opened Wrappers
  import AuthContext
  import Journal
  import Breathe

  datatype Stats = Stats(entries: nat, sessions: nat)

  /** The keys of a journal store. */
  function KeySet(es: Journal.Store): set<int> {
    set i | 0 <= i < |es| :: es[i].0
  }

  /** With distinct keys there are as many keys as pairs: `Object.keys(journal).length` counts the days. */
  lemma {:induction false} KeysAreCounted(es: Journal.Store)
    requires Journal.DistinctKeys(es)
    ensures |KeySet(es)| == |es|
  {
    if es != [] {
      var init := es[..|es| - 1];
      assert Journal.DistinctKeys(init);
      KeysAreCounted(init);
      assert KeySet(es) == KeySet(init) + {es[|es| - 1].0} by {
        forall i | 0 <= i < |es| - 1 ensures es[i].0 == init[i].0 { }
      }
      assert es[|es| - 1].0 !in KeySet(init);
    }
  }

  /** The counts read on load; a missing value counts as empty. */
  function StatsOf(journal: Option<Journal.Store>, breathe: Option<seq<Breathe.SessionRecord>>): (s: Stats)
    ensures journal.Some? && Journal.DistinctKeys(journal.value) ==> s.entries == |KeySet(journal.value)|
    ensures journal.None? ==> s.entries == 0
    ensures s.sessions == if breathe.Some? then |breathe.value| else 0
  {
    var sessions := if breathe.Some? then |breathe.value| else 0;
    if journal.Some? then
      assert Journal.DistinctKeys(journal.value) ==> |KeySet(journal.value)| == |journal.value| by {
        if Journal.DistinctKeys(journal.value) {
          KeysAreCounted(journal.value);
        }
      }
      Stats(|journal.value|, sessions)
    else Stats(0, sessions)
  }

  /** Saving a journal entry for a new day raises the entry count by one; rewriting a day keeps it. */
  lemma SavingAnEntryCounts(es: Journal.Store, key: int, e: Journal.Entry)
    requires Journal.DistinctKeys(es)
    ensures StatsOf(Some(Journal.Upsert(es, key, e)), None).entries
      == StatsOf(Some(es), None).entries + (if Journal.Get(es, key).Some? then 0 else 1)
  {
    Journal.UpsertGet(es, key, e, key);
  }

  /** `{ ...user, name }`. */
  function Renamed(u: AuthContext.User, name: string): (v: AuthContext.User)
    ensures v.name == name && v.pin == u.pin && v.joinDate == u.joinDate
  {
    u.(name := name)
  }

  /** Renaming keeps the PIN, so the same PIN still signs in. */
  lemma RenameKeepsLogin(u: AuthContext.User, name: string, pin: string)
    ensures Renamed(u, name).pin == pin <==> u.pin == pin
  {
  }

  /** `user?.name || 'User'`. */
  function InitialName(user: Option<AuthContext.User>): (n: string)
    ensures user.Some? && user.value.name != "" ==> n == user.value.name
    ensures n != ""
  {
    if user.Some? && user.value.name != "" then user.value.name else "User"
  }

  class ProfilePage {
    const user: Option<AuthContext.User>
    var name: string
    var isEditing: bool
    var stats: Stats
    /** The record under `mlh_user`. */
    var stored: Option<AuthContext.User>
    var reloaded: bool

    constructor (user: Option<AuthContext.User>, stored: Option<AuthContext.User>,
                 journal: Option<Journal.Store>, breathe: Option<seq<Breathe.SessionRecord>>)
      ensures this.user == user && this.stored == stored
      ensures name == InitialName(user) && !isEditing && !reloaded
      ensures stats == StatsOf(journal, breathe)
    {
      this.user := user;
      this.stored := stored;
      name := InitialName(user);
      isEditing := false;
      stats := StatsOf(journal, breathe);
      reloaded := false;
    }

    /** The pencil button. */
    method StartEditing()
      modifies this`isEditing
      ensures isEditing
    {
      isEditing := true;
    }

    /** The name field accepts typing whether or not editing was started. */
    method ChangeName(s: string)
      modifies this`name
      ensures name == s
    {
      name := s;
    }

    /**
     * `handleSave`: leave editing; with a signed-in user, store the user
     * renamed and reload; without one, write nothing.
     */
    method Save()
      modifies this`isEditing, this`stored, this`reloaded
      ensures !isEditing
      ensures user.Some? ==> stored == Some(Renamed(user.value, name)) && reloaded
      ensures user.None? ==> stored == old(stored) && reloaded == old(reloaded)
    {
      isEditing := false;
      if user.Some? {
        stored := Some(Renamed(user.value, name));
        reloaded := true;
      }
    }
  }
}
