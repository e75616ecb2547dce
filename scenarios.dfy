/**
 * A walk through the screen as a caller sees it, proved from the members'
 * contracts and definitions: filling the form with the return key, submitting a complete
 * enrollment whose service call succeeds, and submitting again.
 */
module Scenarios {
  import opened Wrappers
  import opened EnrollmentModel
  import opened OwnerForm
  import opened Submission
  import opened OwnerProfile

  /** The return key walks the three fields; the button turns on with the last one. */
  method FillWithReturnKey()
  {
    var screen := new OwnerProfileViewController<int, string>(None);
    assert !screen.buttonEnabled;
    var widgets := FieldTexts(Some("Jane Doe"), Some("555-0100"), Some("jane@example.com"));
    screen.focus := Focused(NameField);  // the user taps into the name field
    var ok := screen.TextFieldShouldReturn(NameField, widgets);
    assert screen.focus == Focused(PhoneField) && !screen.buttonEnabled;
    ok := screen.TextFieldShouldReturn(PhoneField, widgets);
    assert screen.focus == Focused(EmailField) && !screen.buttonEnabled;
    ok := screen.TextFieldShouldReturn(EmailField, widgets);
    assert screen.focus == Unfocused && screen.buttonEnabled && ok;
    assert screen.Fields() == widgets;
  }

  /** A complete enrollment posted twice: the second tap posts again. */
  method SubmitTwice()
  {
    var dog := Dog(Some("Rex"), Some("Jindo"), Some("2019"), Some("male"), Some(0));
    var handedOver := Some(Enrollment(None, Some(dog), Some(1), Some(2), Some(3), Some(4), Some(5)));
    var screen := new OwnerProfileViewController<int, string>(handedOver);
    var widgets := FieldTexts(Some("Jane Doe"), Some("555-0100"), Some("jane@example.com"));
    screen.TextFieldDidEndEditing(NameField, widgets);
    screen.TextFieldDidEndEditing(PhoneField, widgets);
    screen.TextFieldDidEndEditing(EmailField, widgets);
    assert screen.Fields() == widgets;

    var owner := Owner("Jane Doe", "555-0100", "jane@example.com");
    var submitted := Enrollment(Some(owner), Some(dog), Some(1), Some(2), Some(3), Some(4), Some(5));
    var request := Request("Jane Doe", "555-0100", "jane@example.com",
                           "Rex", "Jindo", "2019", "male", 0, 1, 2, 3, 4, 5);
    assert WithOwner(handedOver, owner) == submitted;
    assert RequestOf(Some(submitted)) == Some(request);

    screen.EnrollmentButtonTouchUp(Success(Typed("42")));
    assert screen.enrollment == Some(submitted);
    assert screen.trace == [PresentLoading(Some("Rex")), CallService(request), DismissLoading, PushResult("42")];

    assert WithOwner(Some(submitted), owner) == submitted;
    screen.EnrollmentButtonTouchUp(NetworkFail);
    assert screen.trace[4..] == [PresentLoading(Some("Rex")), CallService(request), Log("networkFail")];
  }
}
