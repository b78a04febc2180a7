/**
 * The Team screen's pure parts (frontend/src/scenes/Team.jsx): numbering
 * the fetched users for the grid, and the choice between the loader and the
 * grid.
 */
module Team {
  import opened Wrappers
  import opened UserSlice

  /** `fetchedUsers.map((user, index) => ({ ...user, id: index + 1 }))`. */
  function AssignIds(users: seq<Profile>): (rows: seq<Row>)
    ensures |rows| == |users|
    ensures forall i :: 0 <= i < |rows| ==> rows[i].user == users[i]
  {
    seq(|users|, i requires 0 <= i < |users| => Row(users[i], i + 1))
  }

  /** The users of the rows, in order. */
  function Users(rows: seq<Row>): (us: seq<Profile>)
    ensures |us| == |rows|
  {
    seq(|rows|, i requires 0 <= i < |rows| => rows[i].user)
  }

  /** The set of ids the rows carry. */
  function Ids(rows: seq<Row>): set<int> {
    set r | r in rows :: r.id
  }

  /** The ids are 1..n in list order, so no two rows share one, and dropping them gives the fetched list back. */
  lemma AssignIdsNumbers(users: seq<Profile>)
    ensures forall i :: 0 <= i < |users| ==> AssignIds(users)[i].id == i + 1
    ensures forall i, j :: 0 <= i < j < |users| ==> AssignIds(users)[i].id != AssignIds(users)[j].id
    ensures forall k :: k in Ids(AssignIds(users)) <==> 1 <= k <= |users|
    ensures Users(AssignIds(users)) == users
  {
    var rows := AssignIds(users);
    forall k | 1 <= k <= |users| ensures k in Ids(rows) {
      assert rows[k - 1] in rows;
    }
  }

  /** What the screen renders: the loader until `users` is defined, then the grid. */
  datatype View = Loader | Grid(rows: seq<Row>)

  function TeamView(users: Option<seq<Row>>): (v: View)
    ensures v == Loader <==> users == None
  {
    match users
    case None => Loader
    case Some(rows) => Grid(rows)
  }
}
