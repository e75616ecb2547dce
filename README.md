# SavePets owner-profile screen, modelled in Dafny

This project models the last step of the SavePets dog-enrollment flow. That step is the
owner-profile screen, `OwnerProfileViewController`. The owner types a name, a phone number
and an email into three text fields, and the screen stores each value when its field commits.
The enrollment button is enabled exactly when all three stored values are present and
non-empty. Whitespace is not trimmed. The return key moves the focus Name → Phone → Email →
released. When the button is tapped with all three values non-nil, the screen rebuilds the
enrollment: the owner is new, and the dog and the five nose images are copied from the
enrollment handed over by the earlier screens. It then shows the loading screen and posts the
enrollment to the enrollment service, which needs thirteen values. The service's answer
decides what follows. A typed result dismisses the loading screen and pushes the result
screen. The string `"fail"` only dismisses. Any other payload does nothing. The four error
cases only log.

Files and modules:

- `wrappers.dfy` (`Wrappers`): the optional type, with `:-` standing for Swift's `guard let` chains.
- `enrollment.dfy` (`EnrollmentModel`): owner, dog, enrollment, the service request, the snapshot rebuild and the thirteen-value guard.
- `owner_form.dfy` (`OwnerForm`): validation, the write one commit performs, the replay of a history of commits, and the focus line.
- `submission.dfy` (`Submission`): the service outcome, the observable effects, and how each outcome maps to them.
- `owner_profile.dfy` (`OwnerProfile`): the view controller as a class. It holds the three optional owner values, the button flag, the focus, the enrollment and the effect trace. A ghost history of commits ties the stored values to `OwnerForm.Replay`. Its invariant `Valid()` says the button flag always equals `Verify` of the stored values.
- `scenarios.dfy` (`Scenarios`): a caller's walk through the screen, proved from the members' contracts and definitions. It shows that a second tap posts again, because the code has no in-flight guard.

Modelling choices:

- Images are a type parameter `I`, and the service's typed result is a type parameter `R`.
- The declaration of `Dog` is not part of this model. Its five members are optional, because the guard unwraps each one. `birthYear` and `sex` are modelled as strings.
- The owner's strings are not optional, because `Owner` is built from unwrapped strings.
- A commit takes the current text of the three text fields as a parameter (`FieldTexts`). In the else branch the code reads the email field's text, not the sender's. So a callback from a field that is none of the three (`OtherField`) stores the email field's text into the email slot.
- `becomeFirstResponder` sets the focus. `resignFirstResponder` releases it only when that field holds it. From this, `FocusAfterReturn` proves the forward line whenever the return key comes from the focused field.
- The enrollment service's answer is a parameter (`Outcome`) of the submit method. The global-queue and main-queue dispatches are treated as running in order, so the effect order is the order of the code.
- `postEnrollmentWithAPI` ignores its `enrollment` argument and reads the stored enrollment. Under sequential execution the two are the same value.
- Showing the loading screen, dismissing it, pushing the result screen, calling the service and logging are recorded as effects in `trace`.

## Model

| member | source | states |
|---|---|---|
| OwnerForm.VerifyProperty | SavePets/SavePets/Sources/ViewControllers/OwnerProfileViewController.swift:92-95 | a value passes exactly when it is non-nil and has positive length |
| OwnerForm.WhitespaceIsPresent | SavePets/SavePets/Sources/ViewControllers/OwnerProfileViewController.swift:92-95 | every non-empty whitespace-only string passes; the empty string and nil do not |
| OwnerForm.Verify | SavePets/SavePets/Sources/ViewControllers/OwnerProfileViewController.swift:97-99 | the form passes exactly when every one of the three slots holds a non-empty string |
| OwnerForm.SlotOf | SavePets/SavePets/Sources/ViewControllers/OwnerProfileViewController.swift:138-144 | name field → name slot, phone field → phone slot, every other field → email slot |
| OwnerForm.CommitOf | SavePets/SavePets/Sources/ViewControllers/OwnerProfileViewController.swift:138-144 | a callback writes the slot chosen by `SlotOf`, with the text of the field that owns that slot |
| OwnerForm.Commit | SavePets/SavePets/Sources/ViewControllers/OwnerProfileViewController.swift:138-144 | a write sets its own slot and leaves the other two slots unchanged |
| OwnerForm.ReplayLastWriteWins | SavePets/SavePets/Sources/ViewControllers/OwnerProfileViewController.swift:136-162 | after any history of commits, a slot holds the text of its latest write |
| OwnerForm.ReplayUntouched | SavePets/SavePets/Sources/ViewControllers/OwnerProfileViewController.swift:136-162 | a slot that no commit writes keeps its starting value |
| OwnerForm.EnabledIffEveryLatestWriteNonEmpty | SavePets/SavePets/Sources/ViewControllers/OwnerProfileViewController.swift:97-104 | from a fresh form, after any history of commits, the button is enabled exactly when every slot's latest write is a non-empty text |
| OwnerForm.NextInLine | SavePets/SavePets/Sources/ViewControllers/OwnerProfileViewController.swift:148-158 | the return-key line is Name → Phone → Email → released |
| OwnerForm.FocusAfterReturn | SavePets/SavePets/Sources/ViewControllers/OwnerProfileViewController.swift:148-162 | the name and phone fields always hand the focus forward; each return from the focused field moves one step forward along the line, never back |
| EnrollmentModel.WithOwner | SavePets/SavePets/Sources/ViewControllers/OwnerProfileViewController.swift:110-118 | the rebuilt enrollment has the new owner; dog and all five images are the previous enrollment's, or absent when there was none; it is complete exactly when the previous cargo was |
| EnrollmentModel.WithOwnerTwice | SavePets/SavePets/Sources/ViewControllers/OwnerProfileViewController.swift:110-118 | rebuilding twice keeps only the latest owner and the original dog and images |
| EnrollmentModel.DogNameOf | SavePets/SavePets/Sources/ViewControllers/OwnerProfileViewController.swift:75 | the loading screen gets the dog's name exactly when the enrollment, its dog and the name are all present |
| EnrollmentModel.RequestOf | SavePets/SavePets/Sources/ViewControllers/OwnerProfileViewController.swift:174-204 | a request exists exactly when all thirteen owner, dog and image values are present, and it carries exactly those values |
| Submission.Reactions | SavePets/SavePets/Sources/ViewControllers/OwnerProfileViewController.swift:206-224 | a typed success gives dismiss then push of that result; `"fail"` gives only dismiss; only these two dismiss and only a typed success pushes; each error case gives one log entry; any other success payload gives nothing |
| Submission.PostEffects | SavePets/SavePets/Sources/ViewControllers/OwnerProfileViewController.swift:169-227 | no effects unless all thirteen values are present, otherwise the service call followed by the callback's effects |
| Submission.SubmitEffects | SavePets/SavePets/Sources/ViewControllers/OwnerProfileViewController.swift:106-130 | the loading screen comes first and only once; the service is called at most once, right after it, and only for a complete enrollment; `"fail"` ends with the call and a dismiss; a push comes last, right after a dismiss, and only for a typed success with that result; other payloads and the errors neither dismiss nor push |
| OwnerProfile.OwnerProfileViewController.constructor | SavePets/SavePets/Sources/ViewControllers/OwnerProfileViewController.swift:40-46 | the screen starts with no owner values, the button disabled, no focus and an empty trace |
| OwnerProfile.OwnerProfileViewController.UpdateEnrollmentButton | SavePets/SavePets/Sources/ViewControllers/OwnerProfileViewController.swift:101-104 | the button flag becomes `Verify` of the stored values |
| OwnerProfile.OwnerProfileViewController.StoreField | SavePets/SavePets/Sources/ViewControllers/OwnerProfileViewController.swift:138-144 | the commit changes only the sender's slot and is appended to the commit history |
| OwnerProfile.OwnerProfileViewController.TextFieldDidEndEditing | SavePets/SavePets/Sources/ViewControllers/OwnerProfileViewController.swift:136-146 | stores one slot, then the button flag equals `Verify`; the invariant is kept |
| OwnerProfile.OwnerProfileViewController.TextFieldShouldReturn | SavePets/SavePets/Sources/ViewControllers/OwnerProfileViewController.swift:148-162 | stores one slot, moves the focus as `FocusAfterReturn` says, the button flag equals `Verify`, and it returns true |
| OwnerProfile.OwnerProfileViewController.PresentEnrollmentLoadingViewController | SavePets/SavePets/Sources/ViewControllers/OwnerProfileViewController.swift:68-79 | appends the loading screen, shown with the dog's name |
| OwnerProfile.OwnerProfileViewController.DismissEnrollmentLoadingViewController | SavePets/SavePets/Sources/ViewControllers/OwnerProfileViewController.swift:126 | appends the dismissal of the loading screen |
| OwnerProfile.OwnerProfileViewController.PushToEnrollmentResultViewController | SavePets/SavePets/Sources/ViewControllers/OwnerProfileViewController.swift:81-90 | appends the push of the result screen with that result |
| OwnerProfile.OwnerProfileViewController.PostEnrollmentWithAPI | SavePets/SavePets/Sources/ViewControllers/OwnerProfileViewController.swift:169-227 | appends exactly `PostEffects` of the stored enrollment and the outcome |
| OwnerProfile.OwnerProfileViewController.EnrollmentButtonTouchUp | SavePets/SavePets/Sources/ViewControllers/OwnerProfileViewController.swift:106-130 | with any owner value nil, nothing changes and nothing is emitted; otherwise the enrollment becomes `WithOwner` of the old one, and `SubmitEffects` are appended |

## Left out

- Layout and styling: corner rounding, borders and button colours. Only the enabled flag is modelled.
- Storyboard instantiation and navigation machinery. Showing, dismissing and pushing are trace events. The failing `as?` casts that skip a presentation are foreign casts, and they are not modelled.
- Threading: the global-queue and main-queue dispatches are taken as running in order. The code dismisses on `"fail"` from the service's callback thread, and that is not modelled.
- The weak reference to the loading screen. A dismissal is always an emitted event, even if that screen was never shown or is already gone.
- `EnrollmentService.postEnrollment` and its HTTP transport. Its answer is the `Outcome` parameter, and its request is the `Request` value.
- The contents of images, of the dog and of the result. Only presence matters here.
- The user's tap that focuses a field belongs to UIKit, so no member models it; a caller sets `focus` directly, as `Scenarios.FillWithReturnKey` does.
- How UIKit interleaves the two delegate callbacks: the return key moving the focus also ends editing. Each callback is modelled on its own.
- Behaviour the code does not have is not added: there is no double-submit guard, and transport errors do not dismiss the loading screen. Both are shown as written, in `Submission.SubmitEffects` and `Scenarios.SubmitTwice`.
