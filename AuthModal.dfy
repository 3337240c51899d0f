/** The sign-in dialog (components/AuthModal.tsx): sign in or register through the auth
    provider, with a second step for the administrator's address that accepts one fixed code. */
module AuthModal {
  import opened Types
  import Auth

  datatype Mode = Login | Register

  datatype Credentials = Credentials(name: string, email: string, password: string, confirmPassword: string)

  const EmptyCredentials: Credentials := Credentials("", "", "", "")

  /** The one code the second step accepts. */
  const TwoFactorCode: string := "123456"

  const MismatchError: string := "Passwords do not match"
  const FailureError: string := "Authentication failed. Please try again."
  const CodeError: string := "Invalid 2FA code"

  /** The other mode, as the "Sign up" / "Sign in" link switches. */
  function Toggled(m: Mode): (r: Mode)
    ensures r != m
  {
    if m == Login then Register else Login
  }

  /** Switching twice returns to the first mode. */
  lemma ToggleTwice(m: Mode)
    ensures Toggled(Toggled(m)) == m
  {
  }

  class AuthModalState {
    const auth: Auth.AuthProvider
    var mode: Mode
    var formData: Credentials
    var error: string
    var twoFactorCode: string
    var showTwoFactor: bool
    /** The dialog's `isOpen` prop; `onClose` clears it. */
    var isOpen: bool

    constructor (auth: Auth.AuthProvider, initialMode: Mode)
      ensures this.auth == auth && mode == initialMode && formData == EmptyCredentials
      ensures error == "" && twoFactorCode == "" && !showTwoFactor && isOpen
    {
      this.auth := auth;
      mode := initialMode;
      formData := EmptyCredentials;
      error := "";
      twoFactorCode := "";
      showTwoFactor := false;
      isOpen := true;
    }

    /** `onClose` from the X button or the backdrop (components/AuthModal.tsx:118-125). The
        page keeps the dialog mounted, so mode, form, error, code and second step all stay. */
    method Close()
      modifies this`isOpen
      ensures !isOpen
    {
      isOpen := false;
    }

    /** The page opening the dialog again (app/page.tsx:112, :122): only `isOpen` changes, so
        whatever the dialog held when it was closed is shown again. */
    method Reopen()
      modifies this`isOpen
      ensures isOpen
    {
      isOpen := true;
    }

    method ToggleMode()
      modifies this`mode
      ensures mode == Toggled(old(mode))
    {
      mode := Toggled(mode);
    }

    method SetFormData(c: Credentials)
      modifies this`formData
      ensures formData == c
    {
      formData := c;
    }

    method SetTwoFactorCode(code: string)
      modifies this`twoFactorCode
      ensures twoFactorCode == code
    {
      twoFactorCode := code;
    }

    /** `handleSubmit`. The error is cleared first. A register attempt whose passwords differ
        stops there with an error and calls nothing. A successful sign-in with the
        administrator's address opens the second step and keeps the dialog open; any other
        success closes the dialog and clears the form. `createdAt` and `id` stand for the
        clock readings the provider takes. */
    method HandleSubmit(createdAt: string, id: string)
      modifies this`error, this`showTwoFactor, this`isOpen, this`formData
      modifies auth
      ensures var c := old(formData);
        if old(mode) == Register && c.password != c.confirmPassword then
          && error == MismatchError
          && auth.user == old(auth.user) && auth.storage == old(auth.storage)
          && auth.isLoading == old(auth.isLoading)
          && isOpen == old(isOpen) && showTwoFactor == old(showTwoFactor) && formData == c
        else if old(mode) == Login then
          && auth.user == Some(Auth.MockUser(c.email, createdAt))
          && auth.storage == old(auth.storage)[Auth.UserKey := Auth.MockUser(c.email, createdAt)]
          && !auth.isLoading && error == ""
          && (c.email == Auth.AdminEmail ==>
                showTwoFactor && isOpen == old(isOpen) && formData == c)
          && (c.email != Auth.AdminEmail ==>
                !isOpen && formData == EmptyCredentials && showTwoFactor == old(showTwoFactor))
        else
          && auth.user == Some(Auth.NewUser(id, c.name, c.email, createdAt))
          && auth.storage == old(auth.storage)[Auth.UserKey := Auth.NewUser(id, c.name, c.email, createdAt)]
          && !auth.isLoading
          && error == "" && !isOpen && formData == EmptyCredentials && showTwoFactor == old(showTwoFactor)
    {
      error := "";
      if mode == Register && formData.password != formData.confirmPassword {
        error := MismatchError;
        return;
      }
      var success: bool;
      if mode == Login {
        success := auth.Login(formData.email, formData.password, createdAt);
        if success && formData.email == Auth.AdminEmail {
          showTwoFactor := true;
          return;
        }
      } else {
        success := auth.Register(formData.name, formData.email, formData.password, id, createdAt);
      }
      isOpen := if success then false else isOpen;
      formData := if success then EmptyCredentials else formData;
      error := if success then error else FailureError;
    }

    /** `handleTwoFactorSubmit`: the fixed code ends the second step and closes the dialog; any
        other code only sets an error. The provider is not touched either way, so a wrong code
        leaves the session that the sign-in established. */
    method HandleTwoFactorSubmit()
      modifies this`showTwoFactor, this`isOpen, this`error
      ensures twoFactorCode == TwoFactorCode ==>
        !showTwoFactor && !isOpen && error == old(error)
      ensures twoFactorCode != TwoFactorCode ==>
        error == CodeError && showTwoFactor == old(showTwoFactor) && isOpen == old(isOpen)
      ensures auth.user == old(auth.user) && auth.storage == old(auth.storage)
    {
      if twoFactorCode == TwoFactorCode {
        showTwoFactor := false;
        isOpen := false;
      } else {
        error := CodeError;
      }
    }
  }
}
