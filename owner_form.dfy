/**
 * The owner-details form: three optional text values, the "present and
 * non-empty" validation that gates the submit button, the commit of one
 * text field into its slot, and the return-key focus line
 * Name -> Phone -> Email -> released.
 */
module OwnerForm {
  import opened Wrappers

  /** The three owner slots of the form. */
  datatype Slot = Name | Phone | Email

  /** The text field a delegate callback reports; `OtherField` is any field that is none of the three. */
  datatype Sender = NameField | PhoneField | EmailField | OtherField

  /** Which text field is first responder, if any. */
  datatype Focus = Focused(on: Sender) | Unfocused

  /**
   * One optional string per slot. Used both for the controller's stored
   * owner values and for the current text of the three text fields.
   */
  datatype FieldTexts = FieldTexts(name: Option<string>, phone: Option<string>, email: Option<string>)

  const NoTexts := FieldTexts(None, None, None)

  function Get(t: FieldTexts, s: Slot): Option<string> {
    match s
    case Name => t.name
    case Phone => t.phone
    case Email => t.email
  }

  // ---------------------------------------------------------------- validation

  /** Present and non-empty; whitespace is not trimmed. */
  function VerifyProperty(v: Option<string>): (present: bool)
    ensures present <==> v.Some? && |v.value| > 0
  {
    match v
    case None => false
    case Some(s) => s != []
  }

  predicate IsWhitespace(c: char) {
    c == ' ' || c == '\t' || c == '\n' || c == '\r'
  }

  /** No trimming: every non-empty whitespace-only value counts as present; only nil and "" fail. */
  lemma WhitespaceIsPresent(s: string)
    requires |s| > 0 && forall i :: 0 <= i < |s| ==> IsWhitespace(s[i])
    ensures VerifyProperty(Some(s))
    ensures !VerifyProperty(Some("")) && !VerifyProperty(None)
  {
  }

  /** The submit button's enabled state: every owner slot passes `VerifyProperty`. */
  function Verify(t: FieldTexts): (ok: bool)
    ensures ok <==> forall s: Slot :: Get(t, s).Some? && |Get(t, s).value| > 0
  {
    assert Get(t, Name) == t.name && Get(t, Phone) == t.phone && Get(t, Email) == t.email;
    VerifyProperty(t.name) && VerifyProperty(t.phone) && VerifyProperty(t.email)
  }

  // ---------------------------------------------------------------- commits

  /** Storing `text` into `slot`: what one delegate callback does to the owner values. */
  datatype Write = Write(slot: Slot, text: Option<string>)

  /** The slot a callback writes: anything that is neither the name nor the phone field is treated as email. */
  function SlotOf(sender: Sender): (s: Slot)
    ensures sender == NameField <==> s == Name
    ensures sender == PhoneField <==> s == Phone
    ensures sender == EmailField || sender == OtherField <==> s == Email
  {
    match sender
    case NameField => Name
    case PhoneField => Phone
    case _ => Email
  }

  /**
   * The write a callback from `sender` performs. The text comes from the text
   * field owning the chosen slot, so a callback from an unknown field copies
   * the email field's current text.
   */
  function CommitOf(sender: Sender, widgets: FieldTexts): (w: Write)
    ensures w.slot == SlotOf(sender)
    ensures w.text == Get(widgets, w.slot)
  {
    match sender
    case NameField => Write(Name, widgets.name)
    case PhoneField => Write(Phone, widgets.phone)
    case _ => Write(Email, widgets.email)
  }

  /** Applying one write: its slot takes the text, the other two slots keep theirs. */
  function Commit(t: FieldTexts, w: Write): (u: FieldTexts)
    ensures Get(u, w.slot) == w.text
    ensures forall s: Slot :: s != w.slot ==> Get(u, s) == Get(t, s)
  {
    match w.slot
    case Name => t.(name := w.text)
    case Phone => t.(phone := w.text)
    case Email => t.(email := w.text)
  }

  /** The owner values after the writes `ws`, applied in order, starting from `t`. */
  function Replay(t: FieldTexts, ws: seq<Write>): FieldTexts
    decreases |ws|
  {
    if ws == [] then t else Commit(Replay(t, ws[..|ws| - 1]), ws[|ws| - 1])
  }

  /** Last write wins: a slot holds the text of the latest write to it. */
  lemma {:induction false} ReplayLastWriteWins(t: FieldTexts, ws: seq<Write>, i: nat)
    requires i < |ws|
    requires forall j :: i < j < |ws| ==> ws[j].slot != ws[i].slot
    ensures Get(Replay(t, ws), ws[i].slot) == ws[i].text
    decreases |ws|
  {
    var n := |ws|;
    if i < n - 1 {
      var front := ws[..n - 1];
      assert forall j :: i < j < |front| ==> front[j].slot != front[i].slot by {
        forall j | i < j < |front| ensures front[j].slot != front[i].slot {
          assert front[j] == ws[j] && front[i] == ws[i];
        }
      }
      ReplayLastWriteWins(t, front, i);
      assert front[i] == ws[i];
    }
  }

  /** A slot no write touches keeps its starting value. */
  lemma {:induction false} ReplayUntouched(t: FieldTexts, ws: seq<Write>, s: Slot)
    requires forall j :: 0 <= j < |ws| ==> ws[j].slot != s
    ensures Get(Replay(t, ws), s) == Get(t, s)
    decreases |ws|
  {
    if ws != [] {
      var front := ws[..|ws| - 1];
      assert forall j :: 0 <= j < |front| ==> front[j].slot != s by {
        forall j | 0 <= j < |front| ensures front[j].slot != s {
          assert front[j] == ws[j];
        }
      }
      ReplayUntouched(t, front, s);
    }
  }

  /**
   * The submit button after any history of commits from an empty form is
   * enabled exactly when every slot has been written and its latest write
   * is a non-empty text.
   */
  lemma EnabledIffEveryLatestWriteNonEmpty(ws: seq<Write>)
    ensures Verify(Replay(NoTexts, ws)) <==> forall s: Slot :: LatestWriteNonEmpty(ws, s)
  {
    var f := Replay(NoTexts, ws);
    forall s: Slot
      ensures (Get(f, s).Some? && |Get(f, s).value| > 0) <==> LatestWriteNonEmpty(ws, s)
    {
      var k := LastIndexOf(ws, s, |ws|);
      if k < 0 {
        ReplayUntouched(NoTexts, ws, s);
      } else {
        ReplayLastWriteWins(NoTexts, ws, k);
      }
    }
  }

  /** Slot `s` has been written and its latest write is a non-empty text. */
  ghost predicate LatestWriteNonEmpty(ws: seq<Write>, s: Slot) {
    exists i :: 0 <= i < |ws| && ws[i].slot == s && LatestFor(ws, i)
                && ws[i].text.Some? && |ws[i].text.value| > 0
  }

  /** No later write in `ws` goes to the slot of write `i`. */
  ghost predicate LatestFor(ws: seq<Write>, i: int)
    requires 0 <= i < |ws|
  {
    forall j :: i < j < |ws| ==> ws[j].slot != ws[i].slot
  }

  /** The index of the last write to `s` among the first `n` writes, or -1 when there is none. */
  function LastIndexOf(ws: seq<Write>, s: Slot, n: nat): (k: int)
    requires n <= |ws|
    ensures -1 <= k < n
    ensures k >= 0 ==> ws[k].slot == s
    ensures forall j :: k < j < n ==> ws[j].slot != s
  {
    if n == 0 then -1
    else if ws[n - 1].slot == s then n - 1
    else LastIndexOf(ws, s, n - 1)
  }

  // ---------------------------------------------------------------- focus

  function BecomeFirstResponder(w: Sender): Focus {
    Focused(w)
  }

  /** Resigning releases the focus only when `w` holds it. */
  function ResignFirstResponder(f: Focus, w: Sender): Focus {
    if f == Focused(w) then Unfocused else f
  }

  /** The fixed line the return key walks: Name, Phone, Email, then nothing. */
  function NextInLine(sender: Sender): (f: Focus)
    ensures sender == NameField ==> f == Focused(PhoneField)
    ensures sender == PhoneField ==> f == Focused(EmailField)
    ensures sender != NameField && sender != PhoneField ==> f == Unfocused
  {
    match sender
    case NameField => Focused(PhoneField)
    case PhoneField => Focused(EmailField)
    case _ => Unfocused
  }

  /** Position along the return-key line; an unknown field sits with email. */
  function Rank(f: Focus): nat {
    match f
    case Focused(NameField) => 0
    case Focused(PhoneField) => 1
    case Focused(_) => 2
    case Unfocused => 3
  }

  /**
   * The focus after the return key in `sender`: the name and phone fields
   * hand the focus to the next field and then resign themselves; any other
   * field resigns the email field and then itself. When the sender holds the
   * focus, as it does when the keyboard delivers the return key, the focus
   * moves one step forward along the line.
   */
  function FocusAfterReturn(f: Focus, sender: Sender): (g: Focus)
    ensures f == Focused(sender) ==> g == NextInLine(sender) && Rank(g) > Rank(f)
    ensures sender == NameField || sender == PhoneField ==> g == NextInLine(sender)
  {
    match sender
    case NameField => ResignFirstResponder(BecomeFirstResponder(PhoneField), NameField)
    case PhoneField => ResignFirstResponder(BecomeFirstResponder(EmailField), PhoneField)
    case _ => ResignFirstResponder(ResignFirstResponder(f, EmailField), sender)
  }
}
