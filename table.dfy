/** The table projection of `InitTable`: one row per entry of the first
    group, with the password replaced by a fixed mask. */
module EntryTable {
  import opened Vault

  /** A table row: ID, TITLE, UserName, PASS. */
  datatype Row = Row(id: int, title: string, userName: string, pass: string)

  /** The table widget, reduced to its rows and its selected index. */
  datatype Table = Table(rows: seq<Row>, cursor: nat)

  /** `strings.Repeat`, for a one-character string. */
  function Repeat(c: char, n: nat): (r: string)
    ensures |r| == n && forall i :: 0 <= i < n ==> r[i] == c
  {
    if n == 0 then "" else [c] + Repeat(c, n - 1)
  }

  /** The PASS column: twelve asterisks. */
  const Mask: string := Repeat('*', 12)

  function RowOf(i: int, e: Entry): Row
    requires HasUserName(e)
  {
    Row(i, Title(e), UserName(e), Mask)
  }

  /** The rows the table shows for `es`. */
  function Rows(es: seq<Entry>): (rs: seq<Row>)
    requires AllHaveUserName(es)
  {
    seq(|es|, i requires 0 <= i < |es| => RowOf(i, es[i]))
  }

  /** `InitTable`'s loop over `make([]table.Row, len(entries))`. */
  method BuildRows(es: seq<Entry>) returns (rows: seq<Row>)
    requires AllHaveUserName(es)
    ensures |rows| == |es|
    ensures forall i :: 0 <= i < |es| ==>
      rows[i].id == i && rows[i].title == Title(es[i]) && rows[i].userName == UserName(es[i]) &&
      |rows[i].pass| == 12 && forall j :: 0 <= j < 12 ==> rows[i].pass[j] == '*'
    ensures rows == Rows(es)
  {
    var a := new Row[|es|];
    for i := 0 to |es|
      invariant forall k :: 0 <= k < i ==> a[k] == RowOf(k, es[k])
    {
      a[i] := Row(i, Title(es[i]), UserName(es[i]), Repeat('*', 12));
    }
    rows := a[..];
  }

  /** The rows never depend on the passwords: two entry lists that agree on
      titles and user names give the same table. */
  lemma RowsIgnorePasswords(es: seq<Entry>, fs: seq<Entry>)
    requires AllHaveUserName(es) && AllHaveUserName(fs) && |es| == |fs|
    requires forall i :: 0 <= i < |es| ==> Title(es[i]) == Title(fs[i]) && UserName(es[i]) == UserName(fs[i])
    ensures Rows(es) == Rows(fs)
  {
  }

  /** Rebuilding after an append gives the old rows plus one row for the new
      entry. */
  lemma RowsAppend(es: seq<Entry>, e: Entry)
    requires AllHaveUserName(es) && HasUserName(e)
    ensures AllHaveUserName(es + [e])
    ensures Rows(es + [e]) == Rows(es) + [RowOf(|es|, e)]
  {
  }
}
