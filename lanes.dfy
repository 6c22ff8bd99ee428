/** The lane store of the client: the ordered list of lanes (one subreddit and
    its cached posts each) and the four handlers that change it. Every write to
    storage is recorded as a snapshot of the list. */
module Lanes {
  import opened Outcomes
  import opened Text
  import opened Fetch

  /** A lane: its id (the `Date.now()` of its creation), the subreddit name as the
      user typed it (trimmed), and the posts last fetched for it. */
  datatype Lane = Lane(id: int, subreddit: string, posts: seq<Post>)

  /** Why adding a lane failed. */
  datatype AddError =
    | BlankName                  // nothing left after trimming
    | AlreadyAdded(name: string) // a lane with the same name, ignoring case, exists
    | NoPosts(name: string)      // the fetch succeeded with zero posts
    | FetchError(failure: Failure)

  /** How a refresh ended. */
  datatype RefreshOutcome = UnknownLane | Refreshed | RefreshFailed(failure: Failure)

  /** What storage holds at start-up: nothing, something that does not parse, or
      the list last saved. */
  datatype Stored = Absent | Corrupt | Saved(lanes: seq<Lane>)

  /** Names compare after lower-casing both sides. */
  predicate SameName(a: string, b: string)
  {
    ToLower(a) == ToLower(b)
  }

  /** `lanes.some(lane => lane.subreddit.toLowerCase() === name.toLowerCase())`. */
  function HasName(lanes: seq<Lane>, name: string): (b: bool)
    ensures b <==> exists k :: 0 <= k < |lanes| && SameName(lanes[k].subreddit, name)
  {
    if lanes == [] then false
    else SameName(lanes[0].subreddit, name) || HasName(lanes[1..], name)
  }

  /** No two lanes share a name, ignoring case. */
  ghost predicate UniqueNames(lanes: seq<Lane>)
  {
    forall i, j :: 0 <= i < j < |lanes| ==> !SameName(lanes[i].subreddit, lanes[j].subreddit)
  }

  /** `lanes.find(l => l.id === id)`, as the position of the first lane with that id. */
  function IndexOfId(lanes: seq<Lane>, id: int): (r: Option<nat>)
    ensures r.Some? ==>
      r.value < |lanes| && lanes[r.value].id == id &&
      forall k :: 0 <= k < r.value ==> lanes[k].id != id
    ensures r.None? ==> forall k :: 0 <= k < |lanes| ==> lanes[k].id != id
  {
    if lanes == [] then None
    else if lanes[0].id == id then Some(0)
    else
      match IndexOfId(lanes[1..], id)
      case None => None
      case Some(k) => Some(k + 1)
  }

  /** `a` is `b` with some elements left out, the rest in their original order. */
  ghost predicate Subsequence(a: seq<Lane>, b: seq<Lane>)
    decreases |b|
  {
    if a == [] then true
    else if b == [] then false
    else (a[0] == b[0] && Subsequence(a[1..], b[1..])) || Subsequence(a, b[1..])
  }

  /** `lanes.filter(lane => lane.id !== id)`: exactly the lanes with another id, as
      many times as they occur and in their original order; the list itself when no
      lane has the id. */
  function WithoutId(lanes: seq<Lane>, id: int): (r: seq<Lane>)
    ensures forall l :: multiset(r)[l] == if l.id == id then 0 else multiset(lanes)[l]
    ensures Subsequence(r, lanes)
    ensures (forall k :: 0 <= k < |lanes| ==> lanes[k].id != id) ==> r == lanes
  {
    if lanes == [] then []
    else
      var rest := WithoutId(lanes[1..], id);
      assert lanes == [lanes[0]] + lanes[1..];
      if lanes[0].id == id then
        rest
      else
        assert ([lanes[0]] + rest)[1..] == rest;
        [lanes[0]] + rest
  }

  /** Taking lanes out never makes two names clash. */
  lemma {:induction false} SubsequenceKeepsUnique(a: seq<Lane>, b: seq<Lane>)
    requires Subsequence(a, b) && UniqueNames(b)
    ensures UniqueNames(a)
    decreases |b|
  {
    if a != [] {
      assert b != [];
      if a[0] == b[0] && Subsequence(a[1..], b[1..]) {
        SubsequenceKeepsUnique(a[1..], b[1..]);
        forall j | 0 < j < |a| ensures !SameName(a[0].subreddit, a[j].subreddit) {
          var k := SubsequenceMember(a[1..], b[1..], j - 1);
          assert b[k + 1] == a[j];
        }
      } else {
        SubsequenceKeepsUnique(a, b[1..]);
      }
    }
  }

  /** Every element of a subsequence is somewhere in the original. */
  lemma {:induction false} SubsequenceMember(a: seq<Lane>, b: seq<Lane>, i: nat) returns (k: nat)
    requires Subsequence(a, b) && i < |a|
    ensures k < |b| && b[k] == a[i]
    decreases |b|
  {
    assert b != [];
    if a[0] == b[0] && Subsequence(a[1..], b[1..]) {
      if i == 0 {
        k := 0;
      } else {
        k := SubsequenceMember(a[1..], b[1..], i - 1);
        k := k + 1;
      }
    } else {
      k := SubsequenceMember(a, b[1..], i);
      k := k + 1;
    }
  }

  /** The lane list, and the snapshots written to storage, oldest first. */
  class LaneStore {
    var lanes: seq<Lane>
    ghost var snapshots: seq<seq<Lane>>

    /** `let lanes = []`, before anything is loaded. */
    constructor ()
      ensures lanes == [] && snapshots == []
    {
      lanes := [];
      snapshots := [];
    }

    /** The snapshot storage would give back now. */
    ghost function LastSaved(): Option<seq<Lane>>
      reads this
    {
      if snapshots == [] then None else Some(snapshots[|snapshots| - 1])
    }

    /** `saveLanesToStorage`. */
    method Save()
      modifies this
      ensures lanes == old(lanes) && snapshots == old(snapshots) + [lanes]
      ensures LastSaved() == Some(lanes)
    {
      snapshots := snapshots + [lanes];
    }

    /** `loadLanesFromStorage`: a saved list replaces the lanes, a corrupt entry
        empties them, an absent one leaves them as they are. */
    method Load(stored: Stored)
      modifies this
      ensures snapshots == old(snapshots)
      ensures lanes == match stored
        case Absent => old(lanes)
        case Corrupt => []
        case Saved(saved) => saved
    {
      match stored
      case Absent =>
      case Corrupt => lanes := [];
      case Saved(saved) => lanes := saved;
    }

    /** `handleAddLane`. `fetched` is the resolver's outcome for the trimmed name and
        `now` the clock reading; neither is consulted when the name is blank or
        already present. */
    method AddLane(input: string, fetched: Result<seq<Post>, Failure>, now: int) returns (r: Result<Lane, AddError>)
      modifies this
      ensures var name := Trim(input);
        (name == [] ==> r == Err(BlankName)) &&
        (name != [] && HasName(old(lanes), name) ==> r == Err(AlreadyAdded(name))) &&
        (name != [] && !HasName(old(lanes), name) ==>
          match fetched
          case Err(f) => r == Err(FetchError(f))
          case Ok(posts) => r == if posts == [] then Err(NoPosts(name)) else Ok(Lane(now, name, posts)))
      ensures r.Err? ==> lanes == old(lanes) && snapshots == old(snapshots)
      ensures r.Ok? ==> lanes == old(lanes) + [r.value] && snapshots == old(snapshots) + [lanes]
      ensures UniqueNames(old(lanes)) ==> UniqueNames(lanes)
    {
      var name := Trim(input);
      if name == [] {
        return Err(BlankName);
      }
      if HasName(lanes, name) {
        return Err(AlreadyAdded(name));
      }
      if fetched.Err? {
        return Err(FetchError(fetched.error));
      }
      var posts := fetched.value;
      if |posts| == 0 {
        return Err(NoPosts(name));
      }
      var lane := Lane(now, name, posts);
      lanes := lanes + [lane];
      Save();
      r := Ok(lane);
    }

    /** `handleRefreshLane`: the first lane with the id gets the fetched posts, even
        none, and keeps its place, id and name; a failed fetch changes nothing. */
    method RefreshLane(id: int, fetched: Result<seq<Post>, Failure>) returns (r: RefreshOutcome)
      modifies this
      ensures IndexOfId(old(lanes), id).None? ==>
        r == UnknownLane && lanes == old(lanes) && snapshots == old(snapshots)
      ensures IndexOfId(old(lanes), id).Some? && fetched.Err? ==>
        r == RefreshFailed(fetched.error) && lanes == old(lanes) && snapshots == old(snapshots)
      ensures IndexOfId(old(lanes), id).Some? && fetched.Ok? ==>
        var k := IndexOfId(old(lanes), id).value;
        r == Refreshed &&
        lanes == old(lanes)[k := Lane(old(lanes)[k].id, old(lanes)[k].subreddit, fetched.value)] &&
        snapshots == old(snapshots) + [lanes]
      ensures UniqueNames(old(lanes)) ==> UniqueNames(lanes)
    {
      var found := IndexOfId(lanes, id);
      if found.None? {
        return UnknownLane;
      }
      if fetched.Err? {
        return RefreshFailed(fetched.error);
      }
      var k := found.value;
      lanes := lanes[k := lanes[k].(posts := fetched.value)];
      Save();
      r := Refreshed;
    }

    /** `handleRemoveLane`: keeps the lanes with another id and saves, whether or not
        any lane had the id. */
    method RemoveLane(id: int)
      modifies this
      ensures lanes == WithoutId(old(lanes), id)
      ensures snapshots == old(snapshots) + [lanes]
      ensures UniqueNames(old(lanes)) ==> UniqueNames(lanes)
    {
      lanes := WithoutId(lanes, id);
      if UniqueNames(old(lanes)) {
        SubsequenceKeepsUnique(lanes, old(lanes));
      }
      Save();
    }

    /** `handleClearAll`: nothing happens on an empty list (the question is not even
        asked); otherwise the list is emptied and saved only if the user confirms. */
    method ClearAll(confirmed: bool)
      modifies this
      ensures (old(lanes) == [] || !confirmed) ==> lanes == old(lanes) && snapshots == old(snapshots)
      ensures old(lanes) != [] && confirmed ==> lanes == [] && snapshots == old(snapshots) + [[]]
    {
      if |lanes| == 0 {
        return;
      }
      if confirmed {
        lanes := [];
        Save();
      }
    }
  }
}
