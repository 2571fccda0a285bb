/**
 * The profile page's two small state machines: the edit toggle of the
 * personal-details card and the password-change form.
 */
module Profile {
  import Ui

  datatype PasswordFields = PasswordFields(current: string, newPassword: string, confirm: string)

  const Cleared: PasswordFields := PasswordFields("", "", "")

  /** The page state: editing flag, password form open flag, and the password fields. */
  datatype ProfileForm = ProfileForm(isEditing: bool, isChangingPassword: bool, password: PasswordFields)

  /** The page as first rendered. */
  const Initial: ProfileForm := ProfileForm(false, false, Cleared)

  /** The header button: Edit when not editing, Cancel when editing. */
  function ToggleEdit(f: ProfileForm): (r: ProfileForm)
    ensures r.isEditing != f.isEditing
    ensures r.isChangingPassword == f.isChangingPassword && r.password == f.password
  {
    f.(isEditing := !f.isEditing)
  }

  /** `handleSaveProfile`: confirms and leaves edit mode; nothing is saved anywhere. */
  function SaveProfile(f: ProfileForm): (r: (ProfileForm, Ui.Event))
    ensures !r.0.isEditing
    ensures r.0.isChangingPassword == f.isChangingPassword && r.0.password == f.password
    ensures r.1 == Ui.Toast("Profile Updated", false)
  {
    (f.(isEditing := false), Ui.Toast("Profile Updated", false))
  }

  /** The Cancel button under the form: leaves edit mode. */
  function CancelEdit(f: ProfileForm): (r: ProfileForm)
    ensures !r.isEditing
    ensures r.isChangingPassword == f.isChangingPassword && r.password == f.password
  {
    f.(isEditing := false)
  }

  /** Pressing the header button twice returns to the same state. */
  lemma ToggleTwice(f: ProfileForm)
    ensures ToggleEdit(ToggleEdit(f)) == f
  {
  }

  /** Saving and the form's Cancel leave the page in the same state, and from editing so does the header toggle. */
  lemma SaveAndCancelAgree(f: ProfileForm)
    ensures SaveProfile(f).0 == CancelEdit(f)
    ensures f.isEditing ==> ToggleEdit(f) == CancelEdit(f)
  {
  }

  /** The inputs of the personal-details card (the annual income of the page state has no input). */
  datatype ProfileField = Name | Email | Phone | Aadhaar | DateOfBirth | Occupation | Address | State | District | Pincode

  /** Every field but Aadhaar carries `disabled={!isEditing}`; Aadhaar is always disabled. */
  predicate FieldDisabled(f: ProfileForm, field: ProfileField) {
    field == Aadhaar || !f.isEditing
  }

  /** The Aadhaar number can never be edited; every other field exactly while editing. */
  lemma AadhaarNeverEditable(f: ProfileForm, field: ProfileField)
    ensures FieldDisabled(f, Aadhaar)
    ensures field != Aadhaar ==> (FieldDisabled(f, field) <==> !f.isEditing)
  {
  }

  /**
   * `handleChangePassword`: a destructive "Password Mismatch" that changes
   * nothing when the new and confirmed passwords differ; otherwise "Password
   * Changed", the form closed and all three fields cleared.
   */
  function ChangePassword(f: ProfileForm): (r: (ProfileForm, Ui.Event))
    ensures r.1.Toast?
    ensures r.1.destructive <==> f.password.newPassword != f.password.confirm
    ensures r.1.destructive ==> r.0 == f && r.1.title == "Password Mismatch"
    ensures !r.1.destructive ==> !r.0.isChangingPassword && r.0.password == Cleared && r.1.title == "Password Changed"
    ensures r.0.isEditing == f.isEditing
  {
    if f.password.newPassword != f.password.confirm then
      (f, Ui.Toast("Password Mismatch", true))
    else
      (f.(isChangingPassword := false, password := Cleared), Ui.Toast("Password Changed", false))
  }

  /** The password form's Cancel button. */
  function CancelPassword(f: ProfileForm): (r: ProfileForm)
    ensures !r.isChangingPassword && r.password == Cleared && r.isEditing == f.isEditing
  {
    f.(isChangingPassword := false, password := Cleared)
  }

  /**
   * A successful change ends exactly like Cancel; it succeeds whatever the
   * current password field holds, two empty new passwords included.
   */
  lemma SuccessIsLikeCancel(f: ProfileForm, current: string)
    requires f.password.newPassword == f.password.confirm
    ensures ChangePassword(f).0 == CancelPassword(f)
    ensures !ChangePassword(f.(password := f.password.(current := current))).1.destructive
    ensures !ChangePassword(f.(password := PasswordFields(current, "", ""))).1.destructive
  {
  }

  /** What a user can do on the page. */
  datatype ProfileAction =
    | PressEditToggle | PressCancelEdit | PressSave
    | OpenPasswordForm | TypeCurrent(s: string) | TypeNew(s: string) | TypeConfirm(s: string)
    | SubmitPassword | PressCancelPassword

  /**
   * One action. The password inputs exist only while the form is open, so
   * typing into them is possible only then.
   */
  function Step(f: ProfileForm, a: ProfileAction): ProfileForm {
    match a
    case PressEditToggle => ToggleEdit(f)
    case PressCancelEdit => if f.isEditing then CancelEdit(f) else f
    case PressSave => if f.isEditing then SaveProfile(f).0 else f
    case OpenPasswordForm => if f.isChangingPassword then f else f.(isChangingPassword := true)
    case TypeCurrent(s) => if f.isChangingPassword then f.(password := f.password.(current := s)) else f
    case TypeNew(s) => if f.isChangingPassword then f.(password := f.password.(newPassword := s)) else f
    case TypeConfirm(s) => if f.isChangingPassword then f.(password := f.password.(confirm := s)) else f
    case SubmitPassword => if f.isChangingPassword then ChangePassword(f).0 else f
    case PressCancelPassword => if f.isChangingPassword then CancelPassword(f) else f
  }

  function Run(f: ProfileForm, actions: seq<ProfileAction>): ProfileForm
    decreases |actions|
  {
    if |actions| == 0 then f else Run(Step(f, actions[0]), actions[1..])
  }

  /** While the password form is closed, its three fields are empty. */
  predicate ClosedFormIsClear(f: ProfileForm) {
    !f.isChangingPassword ==> f.password == Cleared
  }

  /**
   * From the initial page, whatever the user does, a closed password form
   * holds no typed text: every way of closing it clears the fields.
   */
  lemma {:induction false} PasswordFieldsClearedWhenClosed(f: ProfileForm, actions: seq<ProfileAction>)
    requires ClosedFormIsClear(f)
    ensures ClosedFormIsClear(Run(f, actions))
    ensures f == Initial ==> ClosedFormIsClear(Run(Initial, actions))
    decreases |actions|
  {
    if |actions| > 0 {
      var g := Step(f, actions[0]);
      assert ClosedFormIsClear(g);
      PasswordFieldsClearedWhenClosed(g, actions[1..]);
    }
  }
}
