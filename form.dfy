/** The four-field new-entry form (`newentry`) and its focus cycler
    (`focusNewEntryInput`). A text input is reduced to its caption (label), its value
    and whether it has focus. */
module EntryForm {

  datatype Field = Field(caption: string, value: string, focused: bool)

  /** The form: title, user name, password and URL inputs, and the index of
      the input the cursor is on. The cursor is a plain Go `int`. */
  datatype NewEntry = NewEntry(title: Field, userName: Field, password: Field, url: Field, cursor: int)

  const FieldCount: int := 4

  /** The input at ring position `i`, in the order of the cursor's switch. */
  function FieldAt(f: NewEntry, i: int): Field
    requires 0 <= i < FieldCount
  {
    if i == 0 then f.title else if i == 1 then f.userName else if i == 2 then f.password else f.url
  }

  predicate Focused(f: NewEntry, i: int)
  {
    0 <= i < FieldCount && FieldAt(f, i).focused
  }

  /** Sets the focus flag of input `i`; a cursor outside the ring matches no
      case of the source's switch and changes nothing. */
  function SetFocus(f: NewEntry, i: int, on: bool): (g: NewEntry)
    ensures g.cursor == f.cursor
    ensures forall k :: 0 <= k < FieldCount ==>
      FieldAt(g, k) == if k == i then FieldAt(f, k).(focused := on) else FieldAt(f, k)
  {
    if i == 0 then f.(title := f.title.(focused := on))
    else if i == 1 then f.(userName := f.userName.(focused := on))
    else if i == 2 then f.(password := f.password.(focused := on))
    else if i == 3 then f.(url := f.url.(focused := on))
    else f
  }

  /** Go's `/`, which truncates toward zero. */
  function GoQuot(a: int, b: int): int
    requires b > 0
  {
    if a >= 0 then a / b else -((-a) / b)
  }

  /** Go's `%`, which truncates toward zero (Dafny's `%` is Euclidean). */
  function GoRem(a: int, b: int): (r: int)
    requires b > 0
    ensures a >= 0 ==> r == a % b
    ensures a < 0 ==> -b < r <= 0
    ensures a == GoQuot(a, b) * b + r
  {
    if a >= 0 then a % b else -((-a) % b)
  }

  /** The cursor after `cursor += direction; if cursor < 0 { cursor += 4 };
      cursor %= 4`, for any Go ints. */
  function WrapCursor(x: int): int
  {
    GoRem(if x < 0 then x + FieldCount else x, FieldCount)
  }

  /** Blur the input under the cursor, move the cursor to `c`, focus there. */
  function Refocus(f: NewEntry, c: int): (g: NewEntry)
    ensures g.cursor == c
    ensures forall k :: 0 <= k < FieldCount ==>
      FieldAt(g, k) == if k == c then FieldAt(f, k).(focused := true)
                       else if k == f.cursor then FieldAt(f, k).(focused := false)
                       else FieldAt(f, k)
  {
    var blurred := SetFocus(f, f.cursor, false);
    assert forall k :: 0 <= k < FieldCount ==> FieldAt(blurred.(cursor := c), k) == FieldAt(blurred, k);
    SetFocus(blurred.(cursor := c), c, true)
  }

  /** `focusNewEntryInput`, step by step as the source does it. */
  method FocusNewEntryInput(f: NewEntry, direction: int) returns (g: NewEntry)
    ensures g == Refocus(f, WrapCursor(f.cursor + direction))
    ensures forall k :: 0 <= k < FieldCount ==>
      FieldAt(g, k).value == FieldAt(f, k).value && FieldAt(g, k).caption == FieldAt(f, k).caption
    ensures forall k :: 0 <= k < FieldCount ==>
      Focused(g, k) == (k == g.cursor || (k != f.cursor && Focused(f, k)))
    ensures f.cursor + direction >= -FieldCount ==> 0 <= g.cursor < FieldCount
    ensures 0 <= f.cursor < FieldCount && (direction == 1 || direction == -1) ==>
      g.cursor == (f.cursor + direction + FieldCount) % FieldCount
  {
    g := f;
    if g.cursor == 0 {
      g := g.(title := g.title.(focused := false));
    } else if g.cursor == 1 {
      g := g.(userName := g.userName.(focused := false));
    } else if g.cursor == 2 {
      g := g.(password := g.password.(focused := false));
    } else if g.cursor == 3 {
      g := g.(url := g.url.(focused := false));
    }

    var c := g.cursor + direction;
    if c < 0 {
      c := c + 4;
    }
    if c >= 0 {
      c := c % 4;
    } else {
      c := -((-c) % 4);
    }
    g := g.(cursor := c);

    if c == 0 {
      g := g.(title := g.title.(focused := true));
    } else if c == 1 {
      g := g.(userName := g.userName.(focused := true));
    } else if c == 2 {
      g := g.(password := g.password.(focused := true));
    } else if c == 3 {
      g := g.(url := g.url.(focused := true));
    }
  }

  /** The form invariant: the cursor is on the ring and exactly the input
      under it has focus. */
  predicate WellFocused(f: NewEntry)
  {
    0 <= f.cursor < FieldCount && forall k :: 0 <= k < FieldCount ==> (Focused(f, k) <==> k == f.cursor)
  }

  /** On the ring, a step of +1 or -1 wraps to `(cursor + direction + 4) mod 4`,
      and a forward step undone by a backward step returns to the start. */
  lemma WrapCursorOnRing(c: int, d: int)
    requires 0 <= c < FieldCount && (d == 1 || d == -1)
    ensures WrapCursor(c + d) == (c + d + FieldCount) % FieldCount
    ensures 0 <= WrapCursor(c + d) < FieldCount
    ensures WrapCursor(WrapCursor(c + d) - d) == c
  {
  }

  /** A focus move keeps a well-focused form well focused. */
  lemma RefocusWellFocused(f: NewEntry, d: int)
    requires WellFocused(f) && (d == 1 || d == -1)
    ensures WellFocused(Refocus(f, WrapCursor(f.cursor + d)))
  {
    WrapCursorOnRing(f.cursor, d);
    var g := Refocus(f, WrapCursor(f.cursor + d));
    forall k | 0 <= k < FieldCount ensures Focused(g, k) <==> k == g.cursor {
      assert Focused(f, k) <==> k == f.cursor;
    }
  }

  /** Tab followed by Shift+Tab gives back the very same well-focused form. */
  lemma FocusRoundTrip(f: NewEntry)
    requires WellFocused(f)
    ensures var g := Refocus(f, WrapCursor(f.cursor + 1));
      Refocus(g, WrapCursor(g.cursor - 1)) == f
  {
    WrapCursorOnRing(f.cursor, 1);
    RefocusWellFocused(f, 1);
    var g := Refocus(f, WrapCursor(f.cursor + 1));
    var h := Refocus(g, WrapCursor(g.cursor - 1));
    assert h.cursor == f.cursor;
    forall k | 0 <= k < FieldCount ensures FieldAt(h, k) == FieldAt(f, k) {
      assert Focused(f, k) <==> k == f.cursor;
    }
    assert FieldAt(h, 0) == FieldAt(f, 0) && FieldAt(h, 1) == FieldAt(f, 1);
    assert FieldAt(h, 2) == FieldAt(f, 2) && FieldAt(h, 3) == FieldAt(f, 3);
  }

  /** The inputs `InitNewEntryView` creates: empty title, user name and URL,
      the generated password, only the title focused. The cursor is the one
      the previous form left behind: the source does not reset it. */
  function FreshForm(cursor: int, generated: string): (f: NewEntry)
    ensures f.cursor == cursor && f.password.value == generated
    ensures forall k :: 0 <= k < FieldCount ==> (Focused(f, k) <==> k == 0)
    ensures f.title.value == f.userName.value == f.url.value == ""
  {
    NewEntry(Field("Title", "", true), Field("User name", "", false),
             Field("Password", generated, false), Field("URL", "", false), cursor)
  }

  /** A fresh form is well focused exactly when the old cursor was 0. */
  lemma FreshFormWellFocused(cursor: int, generated: string)
    ensures WellFocused(FreshForm(cursor, generated)) <==> cursor == 0
  {
    var f := FreshForm(cursor, generated);
    if WellFocused(f) {
      assert Focused(f, 0);
    }
  }

  /** Reopening the form after the cursor was left on the user name or the
      password input, then pressing Tab, leaves two inputs focused: the title
      (never blurred) and the one the cursor moved to. */
  lemma ReopenThenTabFocusesTwo(cursor: int, generated: string)
    requires cursor == 1 || cursor == 2
    ensures var g := Refocus(FreshForm(cursor, generated), WrapCursor(cursor + 1));
      g.cursor == cursor + 1 && Focused(g, 0) && Focused(g, cursor + 1) && !WellFocused(g)
  {
    var g := Refocus(FreshForm(cursor, generated), WrapCursor(cursor + 1));
    assert Focused(g, 0);
  }
}
