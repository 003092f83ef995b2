/**
 * The debounced validation badge under the nickname input. The 300 ms timer is not
 * modelled: `DebounceElapsed` is the moment the last scheduled check runs.
 */
module NicknameHook {
  import opened NicknameValidation

  datatype Status = Unchecked | Valid | Invalid

  class ValidationHook {
    var validationStatus: Status

    constructor()
      ensures validationStatus == Unchecked
    {
      validationStatus := Unchecked;
    }

    /**
     * The debounced check: a nickname of at least two characters is validated, anything
     * shorter clears the badge.
     */
    method DebounceElapsed(nickname: string)
      modifies this
      ensures |nickname| < MinLength ==> validationStatus == Unchecked
      ensures |nickname| >= MinLength ==> (validationStatus == Valid <==> ValidNickname(nickname))
      ensures |nickname| >= MinLength ==> validationStatus != Unchecked
    {
      if |nickname| > 0 && |nickname| >= 2 {
        var verdict := ValidateNickname(nickname);
        ValidateAcceptsExactlyValid(nickname);
        validationStatus := if verdict.Accepted? then Valid else Invalid;
      } else {
        validationStatus := Unchecked;
      }
    }

    /** A form error marks the badge invalid; its absence leaves it alone. */
    method FormErrorChanged(hasError: bool)
      modifies this
      ensures hasError ==> validationStatus == Invalid
      ensures !hasError ==> validationStatus == old(validationStatus)
    {
      if hasError {
        validationStatus := Invalid;
      }
    }

    function IsValid(): (r: bool)
      reads this
      ensures r <==> validationStatus == Valid
      ensures r ==> !IsInvalid()
    {
      validationStatus == Valid
    }

    function IsInvalid(): (r: bool)
      reads this
      ensures r <==> validationStatus == Invalid
    {
      validationStatus == Invalid
    }
  }
}

/**
 * The profile modal: a nickname form that is reset from the logged-in user when the
 * modal opens, trimmed to 10 characters on every keystroke and formatted when the
 * field loses focus, and submitted only when it is valid and differs from the current
 * nickname.
 */
module MyProfileModal {
  import opened Wrappers
  import opened Services
  import opened NicknameValidation
  import opened ModalStore
  import opened AuthStore

  datatype SubmitResult = NotSubmitted | NoChanges | Sent(request: Call)

  datatype Notice = Success | Failure

  /**
   * What a submit of `nickname` leads to: nothing for an invalid value or without a
   * user, a warning for the current nickname, else the update request.
   */
  function SubmitOutcome(nickname: string, user: Option<User>): (r: SubmitResult)
    ensures !ValidNickname(nickname) || user.None? ==> r == NotSubmitted
    ensures ValidNickname(nickname) && user.Some? && nickname == user.value.nickname ==> r == NoChanges
    ensures ValidNickname(nickname) && user.Some? && nickname != user.value.nickname ==> r == Sent(UpdateProfile(nickname))
  {
    ValidateAcceptsExactlyValid(nickname);
    if !ValidateNickname(nickname).Accepted? then NotSubmitted
    else if user.None? then NotSubmitted
    else if nickname == user.value.nickname then NoChanges
    else Sent(UpdateProfile(nickname))
  }

  class ProfileModal {
    /** The form's current value and the value it was last reset to. */
    var nickname: string
    var defaultNickname: string
    var isSubmitting: bool
    var inFlight: Option<string>

    constructor()
      ensures nickname == "" && defaultNickname == "" && !isSubmitting && inFlight == None
    {
      nickname := "";
      defaultNickname := "";
      isSubmitting := false;
      inFlight := None;
    }

    /**
     * The two effects that run when the user or the open state changes: with a user
     * and the modal open the form is reset to the user's nickname; without a user an
     * open modal is closed.
     */
    method OnUserOrOpenChange(auth: Auth, modals: ModalRegistry)
      modifies this, modals
      ensures auth.user.Some? && old(modals.IsModalOpen(MyProfile)) ==>
        nickname == auth.user.value.nickname && defaultNickname == nickname && modals.openModals == old(modals.openModals)
      ensures auth.user.None? ==>
        nickname == old(nickname) && defaultNickname == old(defaultNickname) &&
        modals.openModals == old(modals.openModals) - {MyProfile}
      ensures !old(modals.IsModalOpen(MyProfile)) ==>
        nickname == old(nickname) && defaultNickname == old(defaultNickname) && modals.openModals == old(modals.openModals)
      ensures isSubmitting == old(isSubmitting) && inFlight == old(inFlight)
    {
      var isOpen := modals.IsModalOpen(MyProfile);
      if auth.user.Some? && isOpen {
        nickname := auth.user.value.nickname;
        defaultNickname := auth.user.value.nickname;
      }
      if auth.user.None? && isOpen {
        modals.CloseModal(MyProfile);
      }
    }

    /** A keystroke: the field keeps at most the first 10 characters. */
    method HandleChange(value: string)
      modifies this
      ensures nickname == Slice10(value)
      ensures |nickname| <= MaxLength && nickname == value[..|nickname|]
      ensures defaultNickname == old(defaultNickname) && isSubmitting == old(isSubmitting) && inFlight == old(inFlight)
    {
      nickname := if |value| <= 10 then value else value[..10];
    }

    /** Leaving the field: the value is replaced by its formatted form. */
    method HandleBlur(value: string)
      modifies this
      ensures nickname == FormatNickname(value)
      ensures defaultNickname == old(defaultNickname) && isSubmitting == old(isSubmitting) && inFlight == old(inFlight)
    {
      nickname := FormatNickname(value);
    }

    /**
     * When the submit button is disabled: no user, a submit in flight, an invalid
     * value, a value equal to the one the form was reset to, or the current nickname.
     */
    function IsSubmitDisabled(auth: Auth): (r: bool)
      reads this, auth
      ensures !r ==> auth.user.Some? && !isSubmitting && ValidNickname(nickname) &&
                     nickname != defaultNickname && nickname != auth.user.value.nickname
      ensures auth.user.None? || isSubmitting || nickname == defaultNickname ==> r
    {
      ValidateAcceptsExactlyValid(nickname);
      auth.user.None? || isSubmitting || !ValidateNickname(nickname).Accepted? ||
      nickname == defaultNickname || nickname == auth.user.value.nickname
    }

    /**
     * The submit handler up to its request. The form is validated first and nothing
     * happens for an invalid value; without a user nothing happens either; an unchanged
     * nickname only warns; otherwise the update request is sent.
     */
    method BeginSubmit(auth: Auth, net: Network) returns (result: SubmitResult)
      requires !isSubmitting
      modifies this, net
      ensures result == SubmitOutcome(nickname, auth.user)
      ensures result.Sent? ==> isSubmitting && inFlight == Some(nickname) && net.log == old(net.log) + [result.request]
      ensures !result.Sent? ==> !isSubmitting && inFlight == old(inFlight) && net.log == old(net.log)
      ensures nickname == old(nickname) && defaultNickname == old(defaultNickname)
    {
      result := SubmitOutcome(nickname, auth.user);
      if result.Sent? {
        isSubmitting := true;
        inFlight := Some(nickname);
        net.Send(result.request);
      }
    }

    /**
     * The continuation: on success the store's user becomes the updated profile and
     * the modal closes; on failure both stay. Submitting ends either way.
     */
    method FinishSubmit(auth: Auth, modals: ModalRegistry, succeeded: bool, updated: User) returns (notice: Notice)
      requires isSubmitting && auth.Valid() && auth.isAuthenticated
      modifies this, auth, modals
      ensures !isSubmitting && inFlight == None && auth.Valid()
      ensures succeeded ==> notice == Success && auth.user == Some(updated) && modals.openModals == old(modals.openModals) - {MyProfile}
      ensures !succeeded ==> notice == Failure && auth.user == old(auth.user) && modals.openModals == old(modals.openModals)
      ensures auth.token == old(auth.token) && nickname == old(nickname)
    {
      if succeeded {
        auth.UpdateUser(updated);
        modals.CloseModal(MyProfile);
        notice := Success;
      } else {
        notice := Failure;
      }
      isSubmitting := false;
      inFlight := None;
    }

    /** Cancel: the form goes back to the user's nickname (when there is a user) and the modal closes. */
    method HandleCancel(auth: Auth, modals: ModalRegistry)
      modifies this, modals
      ensures auth.user.Some? ==> nickname == auth.user.value.nickname && defaultNickname == nickname
      ensures auth.user.None? ==> nickname == old(nickname) && defaultNickname == old(defaultNickname)
      ensures modals.openModals == old(modals.openModals) - {MyProfile}
      ensures isSubmitting == old(isSubmitting) && inFlight == old(inFlight)
    {
      if auth.user.Some? {
        nickname := auth.user.value.nickname;
        defaultNickname := auth.user.value.nickname;
      }
      modals.CloseModal(MyProfile);
    }
  }

  /**
   * Right after the modal opens for a user the submit button is disabled, and it stays
   * disabled until the value differs from the user's nickname.
   */
  method OpenedFormCannotSubmit(m: ProfileModal, auth: Auth, modals: ModalRegistry)
    requires auth.user.Some? && modals.IsModalOpen(MyProfile)
    modifies m, modals
    ensures m.IsSubmitDisabled(auth)
  {
    m.OnUserOrOpenChange(auth, modals);
  }
}
