/** The page state machine of the terminal front end: the application model,
    the three page handlers (unlock, browse, new entry), the dispatcher that
    picks one by the current page, and the copy-feedback decay timer.

    Go passes `model` by value and every handler returns the next one, so the
    model is a datatype and each handler returns a new `Model`. The database
    is reached through a pointer that `createEntry` mutates, so it is a
    `Database` object and the handler that appends to it modifies it. */
module Keeps {
  import opened Vault
  import opened Passgen
  import opened EntryForm
  import opened EntryTable

  /** The `page` string: "password", "keepass", "newentry", or anything else. */
  datatype Page = PasswordPage | KeepassPage | NewentryPage | OtherPage

  /** Bubble Tea key types that the handlers tell apart. */
  datatype KeyType =
    | KeyEnter | KeyEsc | KeyTab | KeyShiftTab | KeyCtrlC
    | KeyRunes(runes: string)
    // Any other special key, by its name. Bubble Tea gives no other key the
    // names "enter", "esc", "tab", "shift+tab" or "ctrl+c", so a `KeyNamed`
    // carrying one of those is a message the runtime never delivers.
    | KeyNamed(name: string)

  datatype Key = Key(typ: KeyType, alt: bool)

  /** `KeyMsg.String()`: the key's name, prefixed with "alt+" when Alt is held. */
  function KeyString(k: Key): string
  {
    (if k.alt then "alt+" else "") +
    match k.typ
    case KeyEnter => "enter"
    case KeyEsc => "esc"
    case KeyTab => "tab"
    case KeyShiftTab => "shift+tab"
    case KeyCtrlC => "ctrl+c"
    case KeyRunes(rs) => rs
    case KeyNamed(name) => name
  }

  datatype Msg =
    | KeyMsg(key: Key)
    | TickMsg
    | FrameMsg
    | WindowSizeMsg(width: int, height: int)
    | OtherMsg

  predicate IsKey(msg: Msg, s: string)
  {
    msg.KeyMsg? && KeyString(msg.key) == s
  }

  /** What a returned `tea.Cmd` asks of the runtime, as far as the core cares:
      quit, or deliver one more `tickMsg` later. */
  datatype Cmd = NoCmd | QuitCmd | TickCmd

  /** The progress bar's target percent, counted in steps of 1/150:
      `SetPercent(1.0)` is 150 steps, `SetPercent(0)` is 0. */
  const FullSteps: nat := 150

  /** `model`. `input` is the unlock input's value; `form` is `currentNewEntry`. */
  datatype Model = Model(
    table: Table,
    entries: seq<Entry>,
    steps: nat,
    tooltip: string,
    input: string,
    page: Page,
    db: Database?,
    form: NewEntry)

  /** `initialModel`: the unlock page, no database, zero-valued form. */
  function InitialModel(): Model
  {
    var blank := Field("", "", false);
    Model(Table([], 0), [], 0, "", "", PasswordPage, null, NewEntry(blank, blank, blank, blank, 0))
  }

  /** What the decoder leaves in the freshly made database for a passphrase,
      and the error it returns, if any. */
  datatype DecodeResult = DecodeResult(groups: seq<Group>, err: Option<string>)

  /** The collaborators the core calls into: the database decoder (keyed by
      the passphrase), the encoder (its error, if any) and the indices
      `rand.Intn` draws for a generated password. */
  datatype Env = Env(
    decode: string -> DecodeResult,
    encode: seq<Group> -> Option<string>,
    draws: seq<int>)

  // ---------------------------------------------------------------------
  // Collaborating operations

  /** The model with its table rebuilt for `es` (a new table selects row 0). */
  function Tabled(m: Model, es: seq<Entry>): Model
    requires AllHaveUserName(es)
  {
    m.(entries := es, table := Table(Rows(es), 0))
  }

  /** `InitTable`: one row per entry of the first group, and `entries`
      replaced by that group's entry list. */
  method InitTable(m: Model) returns (m': Model)
    requires m.db != null && Browsable(m.db.groups)
    ensures m'.entries == m.db.groups[0].entries
    ensures |m'.table.rows| == |m'.entries|
    ensures forall i :: 0 <= i < |m'.entries| ==>
      m'.table.rows[i] == Row(i, Title(m'.entries[i]), UserName(m'.entries[i]), Mask)
    ensures m' == Tabled(m, m.db.groups[0].entries)
  {
    var es := m.db.groups[0].entries;
    var rows := BuildRows(es);
    m' := m.(table := Table(rows, 0));
    m' := m'.(entries := es);
  }

  /** `loadDatabase`: a new database replaces the old one before decoding,
      so it stays in the model even when decoding fails. */
  method LoadDatabase(m: Model, pass: string, decode: string -> DecodeResult)
    returns (m': Model, err: Option<string>)
    requires decode(pass).err.None? ==> Browsable(decode(pass).groups)
    ensures m'.db != null && fresh(m'.db) && m'.db.groups == decode(pass).groups
    ensures err == decode(pass).err
    ensures err.Some? ==> m' == m.(db := m'.db)
    ensures err.None? ==>
      m' == Tabled(m.(db := m'.db), decode(pass).groups[0].entries).(page := KeepassPage)
  {
    var r := decode(pass);
    var db := new Database.Decoded(r.groups);
    m' := m.(db := db);
    if r.err.Some? {
      return m', r.err;
    }
    m' := InitTable(m');
    m' := m'.(page := KeepassPage);
    err := None;
  }

  /** `saveDatabase`: the tooltip reports the encoder's error or "Saved!". */
  method SaveDatabase(m: Model, encode: seq<Group> -> Option<string>)
    returns (m': Model, err: Option<string>)
    requires m.db != null
    ensures err == encode(m.db.groups)
    ensures err.None? ==> m'.tooltip == "Saved!"
    ensures err.Some? ==> m'.tooltip == err.value
    ensures m' == m.(tooltip := m'.tooltip)
  {
    err := encode(m.db.groups);
    if err.Some? {
      m' := m.(tooltip := err.value);
      return;
    }
    m' := m.(tooltip := "Saved!");
  }

  /** `createEntry`: a new entry with the four values, appended to the first
      group through the database pointer. */
  method CreateEntry(m: Model, title: string, userName: string, password: string, url: string)
    returns (m': Model)
    requires m.db != null && |m.db.groups| > 0
    modifies m.db
    ensures m' == m
    ensures m.db.groups == WithEntry(old(m.db.groups), EntryOf(title, userName, password, url))
    ensures |m.db.groups[0].entries| == old(|m.db.groups[0].entries|) + 1
    ensures m.db.groups[0].entries[..old(|m.db.groups[0].entries|)] == old(m.db.groups[0].entries)
    ensures var last := m.db.groups[0].entries[old(|m.db.groups[0].entries|)];
      last.values == [ValueData("Title", title), ValueData("UserName", userName),
                      ValueData("Password", password), ValueData("URL", url)]
  {
    var values: seq<ValueData> := [];
    values := values + [ValueData("Title", title)];
    values := values + [ValueData("UserName", userName)];
    values := values + [ValueData("Password", password)];
    values := values + [ValueData("URL", url)];
    var entry := Entry(values);
    assert entry == EntryOf(title, userName, password, url);
    var group := m.db.groups[0];
    m.db.groups := m.db.groups[0 := group.(entries := group.entries + [entry])];
    m' := m;
  }

  /** `InitNewEntryView`: fresh inputs, only the title focused, a generated
      password; the cursor is left where the previous form had it. */
  method InitNewEntryView(m: Model, draws: seq<int>) returns (m': Model)
    requires ValidDraws(draws)
    ensures m'.form.cursor == m.form.cursor
    ensures forall k :: 0 <= k < FieldCount ==> (Focused(m'.form, k) <==> k == 0)
    ensures |m'.form.password.value| == PasswordLength
    ensures m' == m.(form := FreshForm(m.form.cursor, PasswordFrom(draws)))
  {
    var pw := GeneratePassword(draws);
    m' := m.(form := FreshForm(m.form.cursor, pw));
  }

  // ---------------------------------------------------------------------
  // The copy-feedback decay timer

  /** A `tickMsg` on the browse page: at zero the tooltip is cleared and no
      tick follows; otherwise one step is taken off and a tick is scheduled. */
  function Tick(m: Model): (r: (Model, Cmd))
    ensures r.1 == TickCmd <==> m.steps > 0
    ensures r.1 != QuitCmd
    ensures r.0.steps == if m.steps > 0 then m.steps - 1 else 0
    ensures r.0.tooltip == if m.steps > 0 then m.tooltip else ""
    ensures r.0 == m.(steps := r.0.steps, tooltip := r.0.tooltip)
  {
    if m.steps == 0 then (m.(tooltip := ""), NoCmd)
    else (m.(steps := m.steps - 1), TickCmd)
  }

  /** The model after `n` ticks have been delivered. */
  function Ticks(m: Model, n: nat): Model
    decreases n
  {
    if n == 0 then m else Ticks(Tick(m).0, n - 1)
  }

  /** After `n` ticks the percent is `max(0, steps - n)`; the tooltip survives
      as long as a step was left before the tick, and nothing else changes. */
  lemma {:induction false} TicksDecay(m: Model, n: nat)
    ensures Ticks(m, n).steps == if n <= m.steps then m.steps - n else 0
    ensures Ticks(m, n).tooltip == if n <= m.steps then m.tooltip else ""
    ensures Ticks(m, n) == m.(steps := Ticks(m, n).steps, tooltip := Ticks(m, n).tooltip)
    decreases n
  {
    if n > 0 {
      TicksDecay(Tick(m).0, n - 1);
    }
  }

  /** A tick chain started at `steps` delivers exactly `steps + 1` ticks: the
      tick after `n` earlier ones schedules another exactly when `n < steps`. */
  lemma ChainLength(m: Model, n: nat)
    ensures Tick(Ticks(m, n)).1 == TickCmd <==> n < m.steps
  {
    TicksDecay(m, n);
  }

  /** After a copy the percent reaches zero after 150 ticks while the tooltip
      still reads "Copied!"; tick 151 clears it and schedules nothing, and a
      further tick changes nothing. */
  lemma CopyFeedbackFades(m: Model)
    requires m.steps == FullSteps && m.tooltip == "Copied!"
    ensures Ticks(m, 150).steps == 0 && Ticks(m, 150).tooltip == "Copied!"
    ensures Ticks(m, 151) == m.(steps := 0, tooltip := "")
    ensures Tick(Ticks(m, 150)).1 == TickCmd <==> false
    ensures Tick(Ticks(m, 151)).0 == Ticks(m, 151)
  {
    TicksDecay(m, 150);
    TicksDecay(m, 151);
  }

  // ---------------------------------------------------------------------
  // Page handlers

  // Each handler's step relation relates the model before and after, the
  // root groups of the database the model points to before (`g0`) and
  // after (`g1`), and the command returned.

  /** `PasswordUpdate`: every key press clears the tooltip; Enter (whatever
      the Alt state) tries to load the database with the typed passphrase. */
  ghost predicate PasswordStep(m: Model, msg: Msg, decode: string -> DecodeResult,
                               g0: seq<Group>, m': Model, g1: seq<Group>, cmd: Cmd)
  {
    cmd == NoCmd &&
    if msg.KeyMsg? && msg.key.typ == KeyEnter then
      var r := decode(m.input);
      m'.db != null && g1 == r.groups &&
      if r.err.Some? then
        m' == m.(db := m'.db, tooltip := r.err.value, input := "")
      else
        Browsable(r.groups) &&
        m' == Tabled(m.(db := m'.db, tooltip := ""), r.groups[0].entries).(page := KeepassPage)
    else if msg.KeyMsg? then
      m' == m.(tooltip := "") && g1 == g0
    else
      m' == m && g1 == g0
  }

  predicate PasswordReady(m: Model, msg: Msg, decode: string -> DecodeResult)
  {
    msg.KeyMsg? && msg.key.typ == KeyEnter && decode(m.input).err.None? ==>
      Browsable(decode(m.input).groups)
  }

  method PasswordUpdate(m: Model, msg: Msg, decode: string -> DecodeResult)
    returns (m': Model, cmd: Cmd)
    requires PasswordReady(m, msg, decode)
    ensures m'.db == m.db || (m'.db != null && fresh(m'.db))
    ensures PasswordStep(m, msg, decode, GroupsOf(m.db), m', GroupsOf(m'.db), cmd)
  {
    m' := m;
    if msg.KeyMsg? {
      m' := m'.(tooltip := "");
      if msg.key.typ == KeyEnter {
        var err;
        m', err := LoadDatabase(m', m'.input, decode);
        if err.Some? {
          m' := m'.(tooltip := err.value);
          m' := m'.(input := "");
        }
      }
    }
    cmd := NoCmd;
  }

  /** `KeepassUpdate` on the browse page. */
  ghost predicate KeepassStep(m: Model, msg: Msg, env: Env, g0: seq<Group>, m': Model, g1: seq<Group>, cmd: Cmd)
  {
    g1 == g0 &&
    if IsKey(msg, "y") then
      m' == m.(steps := FullSteps, tooltip := "Copied!") && cmd == TickCmd
    else if IsKey(msg, "o") then
      ValidDraws(env.draws) &&
      m' == m.(page := NewentryPage, form := FreshForm(m.form.cursor, PasswordFrom(env.draws))) &&
      cmd == NoCmd
    else if IsKey(msg, "w") then
      var err := env.encode(g0);
      m' == m.(tooltip := if err.Some? then err.value else "Saved!") && cmd == NoCmd
    else if msg.TickMsg? then
      (m', cmd) == Tick(m)
    else
      m' == m && cmd == NoCmd
  }

  /** What the browse handler needs: a selected row to copy from (the source
      indexes `entries` with the table cursor unchecked), draws for the
      generated password, and a database to save. */
  predicate KeepassReady(m: Model, msg: Msg, env: Env)
  {
    (IsKey(msg, "y") ==> m.table.cursor < |m.entries|) &&
    (IsKey(msg, "o") ==> ValidDraws(env.draws)) &&
    (IsKey(msg, "w") ==> m.db != null)
  }

  method KeepassUpdate(m: Model, msg: Msg, env: Env) returns (m': Model, cmd: Cmd)
    requires KeepassReady(m, msg, env)
    ensures m'.db == m.db
    ensures KeepassStep(m, msg, env, GroupsOf(m.db), m', GroupsOf(m.db), cmd)
  {
    match msg {
      case KeyMsg(k) =>
        var s := KeyString(k);
        if s == "y" {
          m' := m.(steps := FullSteps);
          m' := m'.(tooltip := "Copied!");
          return m', TickCmd;
        } else if s == "o" {
          m' := m.(page := NewentryPage);
          m' := InitNewEntryView(m', env.draws);
        } else if s == "w" {
          var saveErr;
          m', saveErr := SaveDatabase(m, env.encode);
        } else {
          m' := m;
        }
      case TickMsg =>
        if m.steps == 0 {
          m' := m.(tooltip := "");
          return m', NoCmd;
        }
        m' := m.(steps := m.steps - 1);
        return m', TickCmd;
      case _ =>
        m' := m;
    }
    cmd := NoCmd;
  }

  /** `NewentryUpdate` on the new-entry page. */
  ghost predicate NewentryStep(m: Model, msg: Msg, g0: seq<Group>, m': Model, g1: seq<Group>, cmd: Cmd)
  {
    cmd == NoCmd &&
    if IsKey(msg, "esc") then
      m' == m.(page := KeepassPage, steps := 0) && g1 == g0
    else if IsKey(msg, "tab") then
      m' == m.(form := Refocus(m.form, WrapCursor(m.form.cursor + 1))) && g1 == g0
    else if IsKey(msg, "shift+tab") then
      m' == m.(form := Refocus(m.form, WrapCursor(m.form.cursor - 1))) && g1 == g0
    else if IsKey(msg, "enter") then
      var f := m.form;
      |g0| > 0 &&
      g1 == WithEntry(g0, EntryOf(f.title.value, f.userName.value, f.password.value, f.url.value)) &&
      Browsable(g1) &&
      m' == Tabled(m, g1[0].entries).(page := KeepassPage, steps := 0)
    else
      m' == m && g1 == g0
  }

  predicate NewentryReady(m: Model, msg: Msg)
    reads m.db
  {
    IsKey(msg, "enter") ==> m.db != null && Browsable(m.db.groups)
  }

  method NewentryUpdate(m: Model, msg: Msg) returns (m': Model, cmd: Cmd)
    requires NewentryReady(m, msg)
    modifies m.db
    ensures m'.db == m.db
    ensures NewentryStep(m, msg, old(GroupsOf(m.db)), m', GroupsOf(m.db), cmd)
  {
    m' := m;
    if msg.KeyMsg? {
      var s := KeyString(msg.key);
      if s == "esc" {
        m' := m'.(page := KeepassPage);
        m' := m'.(steps := 0);
      } else if s == "tab" {
        var f := FocusNewEntryInput(m'.form, 1);
        m' := m'.(form := f);
      } else if s == "shift+tab" {
        var f := FocusNewEntryInput(m'.form, -1);
        m' := m'.(form := f);
      } else if s == "enter" {
        var f := m'.form;
        ghost var e := EntryOf(f.title.value, f.userName.value, f.password.value, f.url.value);
        EntryOfReadBack(f.title.value, f.userName.value, f.password.value, f.url.value);
        WithEntryBrowsable(m.db.groups, e);
        m' := CreateEntry(m', f.title.value, f.userName.value, f.password.value, f.url.value);
        m' := InitTable(m');
        m' := m'.(page := KeepassPage);
        m' := m'.(steps := 0);
      }
    }
    cmd := NoCmd;
  }

  // ---------------------------------------------------------------------
  // The dispatcher

  /** `Update`: ctrl+c quits before any page sees the message; otherwise
      exactly the handler of the current page runs, and an unknown page does
      nothing. */
  ghost predicate UpdateStep(m: Model, msg: Msg, env: Env, g0: seq<Group>, m': Model, g1: seq<Group>, cmd: Cmd)
  {
    if IsKey(msg, "ctrl+c") then
      m' == m && g1 == g0 && cmd == QuitCmd
    else
      match m.page
      case PasswordPage => PasswordStep(m, msg, env.decode, g0, m', g1, cmd)
      case KeepassPage => m'.db == m.db && KeepassStep(m, msg, env, g0, m', g1, cmd)
      case NewentryPage => m'.db == m.db && NewentryStep(m, msg, g0, m', g1, cmd)
      case OtherPage => m' == m && g1 == g0 && cmd == NoCmd
  }

  predicate UpdateReady(m: Model, msg: Msg, env: Env)
    reads m.db
  {
    !IsKey(msg, "ctrl+c") ==>
      (m.page == PasswordPage ==> PasswordReady(m, msg, env.decode)) &&
      (m.page == KeepassPage ==> KeepassReady(m, msg, env)) &&
      (m.page == NewentryPage ==> NewentryReady(m, msg))
  }

  method Update(m: Model, msg: Msg, env: Env) returns (m': Model, cmd: Cmd)
    requires UpdateReady(m, msg, env)
    modifies m.db
    ensures m'.db == m.db || (m'.db != null && fresh(m'.db))
    ensures m'.db == m.db || GroupsOf(m.db) == old(GroupsOf(m.db))
    ensures UpdateStep(m, msg, env, old(GroupsOf(m.db)), m', GroupsOf(m'.db), cmd)
  {
    if IsKey(msg, "ctrl+c") {
      return m, QuitCmd;
    }
    match m.page {
      case PasswordPage =>
        m', cmd := PasswordUpdate(m, msg, env.decode);
      case KeepassPage =>
        m', cmd := KeepassUpdate(m, msg, env);
      case NewentryPage =>
        m', cmd := NewentryUpdate(m, msg);
      case OtherPage =>
        m', cmd := m, NoCmd;
    }
  }

  // ---------------------------------------------------------------------
  // Properties of the state machine

  /** What holds in every state reached from `InitialModel`, given the content
      `g` of the database the model points to: the form cursor is on the
      ring, the page is one of the three, nothing is listed before unlock,
      and once unlocked the listed entries are the first group's and the
      table shows exactly them. */
  predicate Inv(m: Model, g: seq<Group>)
  {
    0 <= m.form.cursor < FieldCount &&
    !m.page.OtherPage? &&
    (m.page == PasswordPage ==> m.entries == [] && m.table.rows == []) &&
    (m.page != PasswordPage ==>
      m.db != null && Browsable(g) && m.entries == g[0].entries && m.table.rows == Rows(m.entries))
  }

  lemma InitialInv()
    ensures Inv(InitialModel(), [])
  {
  }

  /** In every state the invariant describes, the form and the save key find
      what their handlers demand: once unlocked there is a database and its
      first group lists. */
  lemma UnlockedIsReady(m: Model, msg: Msg)
    requires Inv(m, GroupsOf(m.db)) && m.page != PasswordPage
    ensures NewentryReady(m, msg)
    ensures IsKey(msg, "w") ==> m.db != null
  {
  }

  /** Every step of `Update` keeps the invariant. */
  lemma StepKeepsInv(m: Model, msg: Msg, env: Env, g0: seq<Group>, m': Model, g1: seq<Group>, cmd: Cmd)
    requires Inv(m, g0) && UpdateStep(m, msg, env, g0, m', g1, cmd)
    ensures Inv(m', g1)
  {
  }

  /** Committing the form appends one entry holding the four input values
      verbatim, keeps the earlier entries and rows, adds one masked row, and
      returns to the browse page with the percent reset. */
  lemma CommitAppendsEntry(m: Model, msg: Msg, env: Env, g0: seq<Group>, m': Model, g1: seq<Group>, cmd: Cmd)
    requires Inv(m, g0) && m.page == NewentryPage && IsKey(msg, "enter")
    requires UpdateStep(m, msg, env, g0, m', g1, cmd)
    ensures m'.page == KeepassPage && m'.steps == 0 && cmd == NoCmd
    ensures |m'.entries| == |m.entries| + 1 && m'.entries[..|m.entries|] == m.entries
    ensures var e := m'.entries[|m.entries|];
      Title(e) == m.form.title.value && HasUserName(e) && UserName(e) == m.form.userName.value &&
      Content(e, "Password") == m.form.password.value && Content(e, "URL") == m.form.url.value
    ensures |m'.table.rows| == |m.table.rows| + 1
    ensures m'.table.rows[..|m.table.rows|] == m.table.rows
    ensures m'.table.rows[|m.entries|] ==
      Row(|m.entries|, m.form.title.value, m.form.userName.value, Mask)
  {
    var f := m.form;
    var e := EntryOf(f.title.value, f.userName.value, f.password.value, f.url.value);
    EntryOfReadBack(f.title.value, f.userName.value, f.password.value, f.url.value);
    WithEntryAppends(g0, e);
    assert m'.entries == m.entries + [e];
    RowsAppend(m.entries, e);
  }

  /** Esc leaves the entries, the table and the database as they were. */
  lemma CancelKeepsEntries(m: Model, msg: Msg, env: Env, g0: seq<Group>, m': Model, g1: seq<Group>, cmd: Cmd)
    requires m.page == NewentryPage && IsKey(msg, "esc")
    requires UpdateStep(m, msg, env, g0, m', g1, cmd)
    ensures m'.page == KeepassPage && m'.steps == 0
    ensures m'.entries == m.entries && m'.table == m.table && g1 == g0 && m'.form == m.form
  {
  }

  /** Enter on the unlock page: a failed decode keeps the page, empties the
      input, shows the error and still leaves the new database in the model;
      a successful one opens the browse page with one row per loaded entry. */
  lemma UnlockOutcome(m: Model, msg: Msg, env: Env, g0: seq<Group>, m': Model, g1: seq<Group>, cmd: Cmd)
    requires m.page == PasswordPage && msg.KeyMsg? && msg.key.typ == KeyEnter
    requires UpdateStep(m, msg, env, g0, m', g1, cmd)
    ensures var r := env.decode(m.input);
      m'.db != null && g1 == r.groups &&
      (r.err.Some? ==>
        m'.page == PasswordPage && m'.input == "" && m'.tooltip == r.err.value && m'.entries == m.entries) &&
      (r.err.None? ==>
        m'.page == KeepassPage && m'.tooltip == "" && |m'.table.rows| == |r.groups[0].entries| &&
        m'.entries == r.groups[0].entries)
  {
  }

  /** A tick reaching the unlock or the new-entry page is dropped and
      schedules nothing, so a running decay chain ends there. */
  lemma TickOffBrowseEndsChain(m: Model, env: Env, g0: seq<Group>, m': Model, g1: seq<Group>, cmd: Cmd)
    requires m.page == NewentryPage || m.page == PasswordPage
    requires UpdateStep(m, TickMsg, env, g0, m', g1, cmd)
    ensures m' == m && g1 == g0 && cmd == NoCmd
  {
  }

  /** Alt+Enter unlocks (the unlock page tests the key type) but does not
      commit a new entry (the form tests the key string). */
  lemma AltEnter(m: Model, env: Env, g0: seq<Group>, m': Model, g1: seq<Group>, cmd: Cmd)
    requires UpdateStep(m, KeyMsg(Key(KeyEnter, true)), env, g0, m', g1, cmd)
    ensures m.page == PasswordPage ==> g1 == env.decode(m.input).groups
    ensures m.page == NewentryPage ==> m' == m && g1 == g0
  {
    assert KeyString(Key(KeyEnter, true)) == "alt+enter";
  }

  /** Opening the form with `o` while the cursor is left on the user name or
      the password input, then pressing Tab, focuses two inputs at once. */
  lemma ReopenedFormFocusesTwo(m: Model, env: Env, g0: seq<Group>,
                               m1: Model, g1: seq<Group>, c1: Cmd,
                               m2: Model, g2: seq<Group>, c2: Cmd)
    requires m.page == KeepassPage && (m.form.cursor == 1 || m.form.cursor == 2)
    requires UpdateStep(m, KeyMsg(Key(KeyRunes("o"), false)), env, g0, m1, g1, c1)
    requires UpdateStep(m1, KeyMsg(Key(KeyTab, false)), env, g1, m2, g2, c2)
    ensures m1.page == NewentryPage && m2.page == NewentryPage
    ensures Focused(m2.form, 0) && Focused(m2.form, m.form.cursor + 1) && !WellFocused(m2.form)
  {
    assert KeyString(Key(KeyRunes("o"), false)) == "o";
    assert KeyString(Key(KeyTab, false)) == "tab";
    ReopenThenTabFocusesTwo(m.form.cursor, PasswordFrom(env.draws));
  }

  /** `y` always asks for a new tick, even while an earlier chain is still
      running, so two chains can decay the same percent. */
  lemma CopyStartsChain(m: Model, env: Env, g0: seq<Group>, m': Model, g1: seq<Group>, cmd: Cmd)
    requires m.page == KeepassPage
    requires UpdateStep(m, KeyMsg(Key(KeyRunes("y"), false)), env, g0, m', g1, cmd)
    ensures cmd == TickCmd && m'.steps == FullSteps && m'.tooltip == "Copied!"
    ensures m' == m.(steps := FullSteps, tooltip := "Copied!")
  {
    assert KeyString(Key(KeyRunes("y"), false)) == "y";
  }
}
