/** Entries, groups and the database handle, as the page state machine sees
    them. The KeePass library that defines them is not part of this model:
    an entry is reduced to its ordered list of key/value pairs, a group to its
    name and its entries, and the database to the list of root groups that
    the application reaches through its `*kp.Database` pointer. */
module Vault {

  datatype Option<+T> = None | Some(value: T)

  /** One value of an entry (the library's `ValueData`). */
  datatype ValueData = ValueData(key: string, content: string)

  /** An entry: its values in order. UUID, times and history are left out. */
  datatype Entry = Entry(values: seq<ValueData>)

  /** A root group: its name and its entries (sub-groups are left out). */
  datatype Group = Group(name: string, entries: seq<Entry>)

  /** The first value of `vs` stored under `key` (the library's `Entry.Get`,
      which answers nil when there is none). */
  function Find(vs: seq<ValueData>, key: string): (r: Option<ValueData>)
    ensures r.None? <==> forall i :: 0 <= i < |vs| ==> vs[i].key != key
    ensures r.Some? ==> exists i :: 0 <= i < |vs| && vs[i] == r.value && r.value.key == key &&
                                   forall j :: 0 <= j < i ==> vs[j].key != key
  {
    if |vs| == 0 then None
    else if vs[0].key == key then Some(vs[0])
    else
      var r := Find(vs[1..], key);
      assert forall i :: 1 <= i < |vs| ==> vs[i] == vs[1..][i - 1];
      if r.Some? then
        var i :| 0 <= i < |vs[1..]| && vs[1..][i] == r.value && r.value.key == key &&
                 forall j :: 0 <= j < i ==> vs[1..][j].key != key;
        assert vs[i + 1] == r.value;
        r
      else r
  }

  function Get(e: Entry, key: string): Option<ValueData>
  {
    Find(e.values, key)
  }

  /** The content stored under `key`, or "" when the entry has none. */
  function Content(e: Entry, key: string): string
  {
    match Get(e, key)
    case Some(v) => v.content
    case None => ""
  }

  /** `GetTitle`: the Title value, "" when absent. */
  function Title(e: Entry): string
  {
    Content(e, "Title")
  }

  predicate HasUserName(e: Entry)
  {
    Get(e, "UserName").Some?
  }

  /** `Get("UserName").Value.Content`: the application dereferences the
      result without a nil check, so an entry without a UserName value
      makes it panic. */
  function UserName(e: Entry): string
    requires HasUserName(e)
  {
    Get(e, "UserName").value.content
  }

  predicate AllHaveUserName(es: seq<Entry>)
  {
    forall i :: 0 <= i < |es| ==> HasUserName(es[i])
  }

  /** What the table projection needs of a decoded database: a first group
      (it indexes `Groups[0]` unchecked) whose entries all hold a UserName. */
  predicate Browsable(groups: seq<Group>)
  {
    |groups| > 0 && AllHaveUserName(groups[0].entries)
  }

  /** The entry `createEntry` builds: a fresh entry with exactly four values,
      Title, UserName, Password and URL, in that order. */
  function EntryOf(title: string, userName: string, password: string, url: string): Entry
  {
    Entry([ValueData("Title", title), ValueData("UserName", userName),
           ValueData("Password", password), ValueData("URL", url)])
  }

  /** The four values put into an entry are read back verbatim. */
  lemma EntryOfReadBack(title: string, userName: string, password: string, url: string)
    ensures var e := EntryOf(title, userName, password, url);
      |e.values| == 4 && HasUserName(e) &&
      Title(e) == title && UserName(e) == userName &&
      Content(e, "Password") == password && Content(e, "URL") == url
  {
    var e := EntryOf(title, userName, password, url);
    assert e.values[0].key == "Title";
    assert e.values[1].key == "UserName" && e.values[0].key != "UserName";
    assert e.values[2].key == "Password" && e.values[0].key != "Password" && e.values[1].key != "Password";
    assert e.values[3].key == "URL" && e.values[0].key != "URL" && e.values[1].key != "URL" && e.values[2].key != "URL";
  }

  /** Group 0 of `groups` with `e` appended to its entries. */
  function WithEntry(groups: seq<Group>, e: Entry): seq<Group>
    requires |groups| > 0
  {
    groups[0 := groups[0].(entries := groups[0].entries + [e])]
  }

  /** Appending makes group 0 one entry longer, keeps its earlier entries and
      every other group, and puts `e` last. */
  lemma WithEntryAppends(groups: seq<Group>, e: Entry)
    requires |groups| > 0
    ensures var r := WithEntry(groups, e);
      |r| == |groups| &&
      r[0].name == groups[0].name &&
      |r[0].entries| == |groups[0].entries| + 1 &&
      r[0].entries[..|groups[0].entries|] == groups[0].entries &&
      r[0].entries[|groups[0].entries|] == e &&
      forall i :: 1 <= i < |groups| ==> r[i] == groups[i]
  {
  }

  /** Appending an entry that holds a UserName keeps the database browsable. */
  lemma WithEntryBrowsable(groups: seq<Group>, e: Entry)
    requires Browsable(groups) && HasUserName(e)
    ensures Browsable(WithEntry(groups, e))
  {
  }

  /** The database the application points to. Only its root groups are
      modelled; credentials and metadata are not. */
  class Database {
    var groups: seq<Group>

    /** `kp.NewDatabase()` followed by the decoder filling it in. */
    constructor Decoded(groups: seq<Group>)
      ensures this.groups == groups
    {
      this.groups := groups;
    }
  }

  /** The root groups behind a possibly nil database pointer. */
  function GroupsOf(db: Database?): seq<Group>
    reads db
  {
    if db == null then [] else db.groups
  }
}
