/**
 * The owner-profile screen: the three owner values it stores, the submit
 * button's enabled flag, the text-field focus, the enrollment it completes
 * and the ordered trace of its observable effects. The enrollment service's
 * answer is a parameter of the submit action; the background and main-queue
 * dispatches around it are taken as running in order.
 */
module OwnerProfile {
  import opened Wrappers
  import opened EnrollmentModel
  import opened OwnerForm
  import opened Submission

  class OwnerProfileViewController<I, R> {
    var enrollment: Option<Enrollment<I>>
    var ownerName: Option<string>
    var ownerPhoneNumber: Option<string>
    var ownerEmail: Option<string>
    var buttonEnabled: bool
    var focus: Focus
    var trace: seq<Effect<I, R>>

    /** Every write the text-field callbacks have made, in order. */
    ghost var commits: seq<Write>

    function Fields(): FieldTexts
      reads this
    {
      FieldTexts(ownerName, ownerPhoneNumber, ownerEmail)
    }

    /**
     * The stored owner values are exactly the replay of the commits, and the
     * button is enabled exactly when they all pass validation.
     */
    ghost predicate Valid()
      reads this
    {
      Fields() == Replay(NoTexts, commits) && buttonEnabled == Verify(Fields())
    }

    /** The screen as loaded, with the enrollment handed over by the earlier screens; the button starts disabled. */
    constructor (handedOver: Option<Enrollment<I>>)
      ensures Valid()
      ensures enrollment == handedOver && Fields() == NoTexts && !buttonEnabled
      ensures focus == Unfocused && trace == [] && commits == []
    {
      enrollment := handedOver;
      ownerName, ownerPhoneNumber, ownerEmail := None, None, None;
      buttonEnabled := false;
      focus := Unfocused;
      trace := [];
      commits := [];
    }

    method UpdateEnrollmentButton()
      modifies this`buttonEnabled
      ensures buttonEnabled == Verify(Fields())
    {
      var isVerified := VerifyProperty(ownerName) && VerifyProperty(ownerPhoneNumber) && VerifyProperty(ownerEmail);
      buttonEnabled := isVerified;
    }

    /** Stores the text of the field owning `sender`'s slot into that slot only. */
    method StoreField(sender: Sender, widgets: FieldTexts)
      requires Fields() == Replay(NoTexts, commits)
      modifies this`ownerName, this`ownerPhoneNumber, this`ownerEmail, this`commits
      ensures commits == old(commits) + [CommitOf(sender, widgets)]
      ensures Fields() == Commit(old(Fields()), CommitOf(sender, widgets))
      ensures Fields() == Replay(NoTexts, commits)
    {
      if sender == NameField {
        ownerName := widgets.name;
      } else if sender == PhoneField {
        ownerPhoneNumber := widgets.phone;
      } else {
        ownerEmail := widgets.email;
      }
      commits := commits + [CommitOf(sender, widgets)];
      assert commits[..|commits| - 1] == old(commits);
    }

    /** A text field finished editing: commit its slot, then refresh the button. */
    method TextFieldDidEndEditing(sender: Sender, widgets: FieldTexts)
      requires Valid()
      modifies this`ownerName, this`ownerPhoneNumber, this`ownerEmail, this`commits, this`buttonEnabled
      ensures Valid()
      ensures commits == old(commits) + [CommitOf(sender, widgets)]
      ensures Fields() == Commit(old(Fields()), CommitOf(sender, widgets))
      ensures buttonEnabled == Verify(Fields())
    {
      StoreField(sender, widgets);
      UpdateEnrollmentButton();
    }

    /**
     * The return key in `sender`: commit its slot, move the focus along the
     * line, refresh the button, and let the keyboard go ahead.
     */
    method TextFieldShouldReturn(sender: Sender, widgets: FieldTexts) returns (shouldReturn: bool)
      requires Valid()
      modifies this`ownerName, this`ownerPhoneNumber, this`ownerEmail, this`commits,
               this`buttonEnabled, this`focus
      ensures Valid()
      ensures commits == old(commits) + [CommitOf(sender, widgets)]
      ensures Fields() == Commit(old(Fields()), CommitOf(sender, widgets))
      ensures buttonEnabled == Verify(Fields())
      ensures focus == FocusAfterReturn(old(focus), sender)
      ensures shouldReturn
    {
      StoreField(sender, widgets);
      if sender == NameField {
        focus := BecomeFirstResponder(PhoneField);
      } else if sender == PhoneField {
        focus := BecomeFirstResponder(EmailField);
      } else {
        focus := ResignFirstResponder(focus, EmailField);
      }
      UpdateEnrollmentButton();
      focus := ResignFirstResponder(focus, sender);
      shouldReturn := true;
    }

    method PresentEnrollmentLoadingViewController()
      modifies this`trace
      ensures trace == old(trace) + [PresentLoading(DogNameOf(enrollment))]
    {
      var dogName := DogNameOf(enrollment);
      trace := trace + [PresentLoading(dogName)];
    }

    method DismissEnrollmentLoadingViewController()
      modifies this`trace
      ensures trace == old(trace) + [DismissLoading]
    {
      trace := trace + [DismissLoading];
    }

    method PushToEnrollmentResultViewController(result: R)
      modifies this`trace
      ensures trace == old(trace) + [PushResult(result)]
    {
      trace := trace + [PushResult(result)];
    }

    /**
     * Posts the stored enrollment, `o` being what the service answers: no
     * call unless all thirteen values are present, then the call and the
     * callback's effects.
     */
    method PostEnrollmentWithAPI(o: Outcome<R>)
      modifies this`trace
      ensures trace == old(trace) + PostEffects(enrollment, o)
    {
      var request := RequestOf(enrollment);
      if request.None? {
        return;
      }
      trace := trace + [CallService(request.value)];
      match o
      case Success(Typed(result)) =>
        DismissEnrollmentLoadingViewController();
        PushToEnrollmentResultViewController(result);
      case Success(Text(message)) =>
        if message == "fail" {
          DismissEnrollmentLoadingViewController();
        }
      case Success(OtherData) =>
      case RequestErr => trace := trace + [Log("requestErr")];
      case PathErr => trace := trace + [Log("pathErr")];
      case ServerErr => trace := trace + [Log("serverErr")];
      case NetworkFail => trace := trace + [Log("networkFail")];
    }

    /**
     * The submit button: nothing at all unless the three owner values are
     * non-nil (empty strings pass); otherwise the enrollment is rebuilt with
     * the new owner, the loading screen is shown, and the enrollment is posted.
     */
    method EnrollmentButtonTouchUp(o: Outcome<R>)
      requires Valid()
      modifies this`enrollment, this`trace
      ensures Valid()
      ensures old(ownerName).None? || old(ownerPhoneNumber).None? || old(ownerEmail).None? ==>
                enrollment == old(enrollment) && trace == old(trace)
      ensures old(ownerName).Some? && old(ownerPhoneNumber).Some? && old(ownerEmail).Some? ==>
                enrollment == Some(WithOwner(old(enrollment),
                                             Owner(old(ownerName).value, old(ownerPhoneNumber).value, old(ownerEmail).value)))
                && trace == old(trace) + SubmitEffects(enrollment.value, o)
    {
      if ownerName.None? || ownerPhoneNumber.None? || ownerEmail.None? {
        return;
      }
      enrollment := Some(WithOwner(enrollment, Owner(ownerName.value, ownerPhoneNumber.value, ownerEmail.value)));
      PresentEnrollmentLoadingViewController();
      PostEnrollmentWithAPI(o);
    }
  }
}
