/**
 * The `members` table as the core sees it: one row per member, with the nullable
 * columns as options, and the row-level update the components issue (`update … eq('id', …)`).
 */
module Records {
  import opened Wrappers
  import opened Lists

  datatype MemberRow = MemberRow(
    id: string,
    memberNumber: string,
    fullName: Option<string>,
    dateOfBirth: Option<string>,
    email: Option<string>,
    phone: Option<string>,
    address: Option<string>,
    town: Option<string>,
    postcode: Option<string>,
    status: Option<string>,
    collector: Option<string>,
    lockedUntil: Option<int>,
    passwordResetRequired: bool,
    verified: bool,
    adminNote: Option<string>)

  /** `update(patch).eq('id', id)`: every row with that id is patched, every other row is kept. */
  function UpdateById(rows: seq<MemberRow>, id: string, patch: MemberRow -> MemberRow): (r: seq<MemberRow>)
    ensures |r| == |rows|
    ensures forall i :: 0 <= i < |rows| ==> r[i] == (if rows[i].id == id then patch(rows[i]) else rows[i])
  {
    seq(|rows|, i requires 0 <= i < |rows| => if rows[i].id == id then patch(rows[i]) else rows[i])
  }

  /** `select('*').eq('collector', name)`: the rows of one collector, in table order. */
  function RowsOfCollector(rows: seq<MemberRow>, name: string): (r: seq<MemberRow>)
    ensures forall m :: m in r <==> m in rows && m.collector == Some(name)
    ensures IsSubsequence(r, rows)
    ensures |r| <= |rows|
  {
    var ofCollector := (m: MemberRow) => m.collector == Some(name);
    FilterSelects(rows, ofCollector);
    FilterPreservesOrder(rows, ofCollector);
    Filter(rows, ofCollector)
  }
}
