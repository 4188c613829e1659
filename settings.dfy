/** The settings page: the profile form, the password form, couple mode and
    the partner's permission matrix. Service calls are given their result as
    a parameter; the request each handler would send is returned. */
module Settings {
  import opened Text
  import opened Js

  // ---------------------------------------------------------------------------
  // The permission matrix

  /** `CouplePermissions`: for each module, the actions granted or refused. */
  type Permissions = map<string, map<string, bool>>

  /** What the matrix says for one checkbox; `None` when it says nothing. */
  function Lookup(perms: Permissions, section: string, action: string): (r: Option<bool>)
    ensures r.Some? <==> section in perms && action in perms[section]
  {
    if section in perms && action in perms[section] then Some(perms[section][action]) else None
  }

  /** `updatePermission`: the module's entry is copied (an absent one as an
      empty object) with the action set to `value`. */
  function UpdatePermission(perms: Permissions, section: string, action: string, value: bool): (r: Permissions)
    ensures Lookup(r, section, action) == Some(value)
    ensures forall m, a :: (m, a) != (section, action) ==> Lookup(r, m, a) == Lookup(perms, m, a)
    ensures r.Keys == perms.Keys + {section}
  {
    var entry := if section in perms then perms[section] else map[];
    perms[section := entry[action := value]]
  }

  /** Setting the same checkbox twice keeps the last value. */
  lemma UpdatePermissionTwice(perms: Permissions, section: string, action: string, v1: bool, v2: bool)
    ensures UpdatePermission(UpdatePermission(perms, section, action, v1), section, action, v2)
         == UpdatePermission(perms, section, action, v2)
  {
    var once := UpdatePermission(perms, section, action, v1);
    var entry := if section in perms then perms[section] else map[];
    assert once[section][action := v2] == entry[action := v2];
  }

  /** Checkboxes of different modules or actions do not interfere: the order of two updates does not matter. */
  lemma UpdatePermissionCommutes(perms: Permissions, m1: string, a1: string, v1: bool, m2: string, a2: string, v2: bool)
    requires (m1, a1) != (m2, a2)
    ensures UpdatePermission(UpdatePermission(perms, m1, a1, v1), m2, a2, v2)
         == UpdatePermission(UpdatePermission(perms, m2, a2, v2), m1, a1, v1)
  {
    if m1 == m2 {
      SameModuleCommutes(perms, m1, a1, v1, a2, v2);
    } else {
      OtherModulesCommute(perms, m1, a1, v1, m2, a2, v2);
    }
  }

  lemma SameModuleCommutes(perms: Permissions, section: string, a1: string, v1: bool, a2: string, v2: bool)
    requires a1 != a2
    ensures UpdatePermission(UpdatePermission(perms, section, a1, v1), section, a2, v2)
         == UpdatePermission(UpdatePermission(perms, section, a2, v2), section, a1, v1)
  {
    var e := if section in perms then perms[section] else map[];
    var first := perms[section := e[a1 := v1]];
    var second := perms[section := e[a2 := v2]];
    calc {
      UpdatePermission(UpdatePermission(perms, section, a1, v1), section, a2, v2);
      UpdatePermission(first, section, a2, v2);
      first[section := e[a1 := v1][a2 := v2]];
      { MapUpdateOverrides(perms, section, e[a1 := v1], e[a1 := v1][a2 := v2]); }
      perms[section := e[a1 := v1][a2 := v2]];
      { MapUpdateCommutes(e, a1, v1, a2, v2); }
      perms[section := e[a2 := v2][a1 := v1]];
      { MapUpdateOverrides(perms, section, e[a2 := v2], e[a2 := v2][a1 := v1]); }
      second[section := e[a2 := v2][a1 := v1]];
      UpdatePermission(second, section, a1, v1);
      UpdatePermission(UpdatePermission(perms, section, a2, v2), section, a1, v1);
    }
  }

  lemma OtherModulesCommute(perms: Permissions, m1: string, a1: string, v1: bool, m2: string, a2: string, v2: bool)
    requires m1 != m2
    ensures UpdatePermission(UpdatePermission(perms, m1, a1, v1), m2, a2, v2)
         == UpdatePermission(UpdatePermission(perms, m2, a2, v2), m1, a1, v1)
  {
    var e1 := if m1 in perms then perms[m1] else map[];
    var e2 := if m2 in perms then perms[m2] else map[];
    var first := perms[m1 := e1[a1 := v1]];
    var second := perms[m2 := e2[a2 := v2]];
    assert (if m2 in first then first[m2] else map[]) == e2;
    assert (if m1 in second then second[m1] else map[]) == e1;
    calc {
      UpdatePermission(UpdatePermission(perms, m1, a1, v1), m2, a2, v2);
      UpdatePermission(first, m2, a2, v2);
      first[m2 := e2[a2 := v2]];
      { MapUpdateCommutes(perms, m1, e1[a1 := v1], m2, e2[a2 := v2]); }
      second[m1 := e1[a1 := v1]];
      UpdatePermission(second, m1, a1, v1);
      UpdatePermission(UpdatePermission(perms, m2, a2, v2), m1, a1, v1);
    }
  }

  lemma MapUpdateCommutes<K, V>(m: map<K, V>, k1: K, x1: V, k2: K, x2: V)
    requires k1 != k2
    ensures m[k1 := x1][k2 := x2] == m[k2 := x2][k1 := x1]
  {
  }

  lemma MapUpdateOverrides<K, V>(m: map<K, V>, k: K, x1: V, x2: V)
    ensures m[k := x1][k := x2] == m[k := x2]
  {
  }

  // ---------------------------------------------------------------------------
  // The profile

  /** The signed-in user as the page loaded it. */
  datatype Account = Account(name: string, email: string)

  /** `UpdateProfileData`: only the fields that changed. */
  datatype ProfileData = ProfileData(name: Option<string>, email: Option<string>)

  /** The profile payload: `name` when it differs from the user's, `email`
      likewise; with no user loaded both are sent. */
  function ProfilePayload(name: string, email: string, user: Option<Account>): (d: ProfileData)
    ensures d.name.Some? <==> user.None? || name != user.value.name
    ensures d.email.Some? <==> user.None? || email != user.value.email
    ensures d.name.Some? ==> d.name.value == name
    ensures d.email.Some? ==> d.email.value == email
  {
    ProfileData(
      if user.None? || name != user.value.name then Some(name) else None,
      if user.None? || email != user.value.email then Some(email) else None)
  }

  /** What the server makes of the payload: each sent field replaces the stored one. */
  function ApplyProfile(user: Account, d: ProfileData): Account {
    Account(if d.name.Some? then d.name.value else user.name,
            if d.email.Some? then d.email.value else user.email)
  }

  /** Sending only the changed fields loses nothing: the stored profile ends
      up as the form shows it. */
  lemma ProfilePayloadComplete(name: string, email: string, user: Account)
    ensures ApplyProfile(user, ProfilePayload(name, email, Some(user))) == Account(name, email)
  {
  }

  /** An unchanged form sends an empty payload. */
  lemma UnchangedProfileSendsNothing(user: Account)
    ensures ProfilePayload(user.name, user.email, Some(user)) == ProfileData(None, None)
  {
  }

  // ---------------------------------------------------------------------------
  // Couple mode

  /** `CreateCoupleData`. */
  datatype CoupleData = CoupleData(partnerName: string, partnerEmail: Option<string>, permissions: Permissions)

  /** The call `handleToggleCouple` makes, if any. */
  datatype CoupleRequest = NoRequest | Create(data: CoupleData) | Delete

  /** The partner's name is long enough to enable couple mode. */
  predicate PartnerNameOk(partnerName: string) {
    partnerName != "" && |Trim(partnerName)| >= 2
  }

  /** `partnerEmail?.trim() || undefined`. */
  function OptionalEmail(partnerEmail: string): (r: Option<string>)
    ensures r.Some? <==> Trim(partnerEmail) != ""
    ensures r.Some? ==> r.value == Trim(partnerEmail)
  {
    var e := Trim(partnerEmail);
    if e != "" then Some(e) else None
  }

  /** The request of `handleToggleCouple`: enabling asks for a partner name of
      two characters or more (after trimming) and sends it trimmed; disabling
      asks for confirmation; asking for the state already held does nothing. */
  function CoupleRequestOf(enabled: bool, coupleEnabled: bool, partnerName: string, partnerEmail: string,
                           permissions: Permissions, confirmed: bool): (r: CoupleRequest)
    ensures enabled == coupleEnabled ==> r == NoRequest
    ensures r.Create? <==> enabled && !coupleEnabled && PartnerNameOk(partnerName)
    ensures r.Create? ==> r.data == CoupleData(Trim(partnerName), OptionalEmail(partnerEmail), permissions)
    ensures r.Delete? <==> !enabled && coupleEnabled && confirmed
  {
    if enabled && !coupleEnabled then
      if !PartnerNameOk(partnerName) then NoRequest
      else Create(CoupleData(Trim(partnerName), OptionalEmail(partnerEmail), permissions))
    else if !enabled && coupleEnabled then
      if !confirmed then NoRequest else Delete
    else NoRequest
  }

  /** The result of a service call: done, or rejected with an error message. */
  datatype CallResult = Done | Failed(message: string)

  /** The couple-mode switch after the call. */
  function CoupleAfter(coupleEnabled: bool, request: CoupleRequest, result: CallResult): bool {
    match request
    case Create(_) => if result.Done? then true else coupleEnabled
    case Delete => if result.Done? then false else coupleEnabled
    case NoRequest => coupleEnabled
  }

  /** Couple mode is switched on only by a successful create, and off only by
      a confirmed and successful delete. */
  lemma CoupleSwitchNeedsSuccess(enabled: bool, coupleEnabled: bool, partnerName: string, partnerEmail: string,
                                 permissions: Permissions, confirmed: bool, result: CallResult)
    ensures var request := CoupleRequestOf(enabled, coupleEnabled, partnerName, partnerEmail, permissions, confirmed);
      var after := CoupleAfter(coupleEnabled, request, result);
      && (after && !coupleEnabled ==> request.Create? && result.Done? && PartnerNameOk(partnerName))
      && (!after && coupleEnabled ==> request.Delete? && result.Done? && confirmed)
  {
  }

  /** `UpdateCoupleData` of `handleUpdateCouple`: the name as typed (not
      trimmed), the e-mail unless it is empty. */
  function UpdateCouplePayload(partnerName: string, partnerEmail: string, permissions: Permissions): (d: CoupleData)
    ensures d.partnerName == partnerName
    ensures d.partnerEmail.Some? <==> partnerEmail != ""
  {
    CoupleData(partnerName, if partnerEmail != "" then Some(partnerEmail) else None, permissions)
  }

  // ---------------------------------------------------------------------------
  // The page's state and its handlers

  datatype ToastKind = SuccessToast | ErrorToast

  datatype Toast = Toast(kind: ToastKind, text: string)

  /** `error.message || fallback`. */
  function ErrorMessage(message: string, fallback: string): (m: string)
    ensures fallback != "" ==> m != ""
  {
    if message != "" then message else fallback
  }

  const PasswordsDiffer := "As senhas não coincidem"
  const PartnerNameMissing := "Por favor, preencha o nome do parceiro antes de ativar o modo casal"

  /** `ChangePasswordData`. */
  datatype PasswordChange = PasswordChange(currentPassword: string, newPassword: string, confirmPassword: string)

  /** The state of the page's forms. `refetches` counts the reloads of the user. */
  datatype Form = Form(
    name: string,
    email: string,
    currentPassword: string,
    newPassword: string,
    confirmPassword: string,
    coupleEnabled: bool,
    partnerName: string,
    partnerEmail: string,
    permissions: Permissions,
    profileLoading: bool,
    passwordLoading: bool,
    coupleLoading: bool,
    refetches: nat,
    toasts: seq<Toast>)

  /** The toast for a call's result. */
  function ResultToast(result: CallResult, success: string, fallback: string): Toast {
    if result.Done? then Toast(SuccessToast, success) else Toast(ErrorToast, ErrorMessage(result.message, fallback))
  }

  /** `handleChangePassword`'s request: none when the two new passwords differ. */
  function PasswordRequest(f: Form): (r: Option<PasswordChange>)
    ensures r.None? <==> f.newPassword != f.confirmPassword
    ensures r.Some? ==> r.value.newPassword == r.value.confirmPassword
  {
    if f.newPassword != f.confirmPassword then None
    else Some(PasswordChange(f.currentPassword, f.newPassword, f.confirmPassword))
  }

  function ChangePasswordStep(f: Form, result: CallResult): (g: Form)
    ensures f.newPassword != f.confirmPassword ==>
      g == f.(toasts := f.toasts + [Toast(ErrorToast, PasswordsDiffer)])
    ensures f.newPassword == f.confirmPassword && result.Done? ==>
      g.currentPassword == "" && g.newPassword == "" && g.confirmPassword == "" && !g.passwordLoading
    ensures f.newPassword == f.confirmPassword && result.Failed? ==>
      g == f.(passwordLoading := false, toasts := g.toasts)
  {
    if f.newPassword != f.confirmPassword then f.(toasts := f.toasts + [Toast(ErrorToast, PasswordsDiffer)])
    else
      var shown := f.(toasts := f.toasts + [ResultToast(result, "Senha alterada com sucesso!", "Erro ao alterar senha")]);
      var cleared := if result.Done? then shown.(currentPassword := "", newPassword := "", confirmPassword := "") else shown;
      cleared.(passwordLoading := false)
  }

  function UpdateProfileStep(f: Form, result: CallResult): (g: Form)
    ensures g.refetches == f.refetches + (if result.Done? then 1 else 0)
  {
    f.(toasts := f.toasts + [ResultToast(result, "Perfil atualizado com sucesso!", "Erro ao atualizar perfil")],
       refetches := f.refetches + (if result.Done? then 1 else 0),
       profileLoading := false)
  }

  /** The `try` block that creates the couple. */
  function CreateCoupleStep(f: Form, result: CallResult): (g: Form)
    ensures g.coupleEnabled == (result.Done? || f.coupleEnabled)
  {
    f.(toasts := f.toasts + [ResultToast(result, "Modo casal ativado com sucesso!", "Erro ao ativar modo casal")],
       coupleEnabled := if result.Done? then true else f.coupleEnabled,
       refetches := f.refetches + (if result.Done? then 1 else 0),
       coupleLoading := false)
  }

  /** The `try` block that deletes the couple. */
  function DeleteCoupleStep(f: Form, result: CallResult): (g: Form)
    ensures g.coupleEnabled == (!result.Done? && f.coupleEnabled)
  {
    f.(toasts := f.toasts + [ResultToast(result, "Modo casal desativado com sucesso!", "Erro ao desativar modo casal")],
       coupleEnabled := if result.Done? then false else f.coupleEnabled,
       refetches := f.refetches + (if result.Done? then 1 else 0),
       coupleLoading := false)
  }

  function ToggleCoupleStep(f: Form, enabled: bool, confirmed: bool, result: CallResult): (g: Form)
    ensures g.coupleEnabled == CoupleAfter(f.coupleEnabled,
      CoupleRequestOf(enabled, f.coupleEnabled, f.partnerName, f.partnerEmail, f.permissions, confirmed), result)
    ensures CoupleRequestOf(enabled, f.coupleEnabled, f.partnerName, f.partnerEmail, f.permissions, confirmed).NoRequest?
      ==> g.refetches == f.refetches && g.coupleLoading == f.coupleLoading
    ensures enabled == f.coupleEnabled ==> g == f
    ensures !enabled && f.coupleEnabled && !confirmed ==> g == f
    ensures enabled && !f.coupleEnabled && !PartnerNameOk(f.partnerName)
      ==> g == f.(toasts := f.toasts + [Toast(ErrorToast, PartnerNameMissing)])
  {
    var request := CoupleRequestOf(enabled, f.coupleEnabled, f.partnerName, f.partnerEmail, f.permissions, confirmed);
    match request
    case NoRequest =>
      if enabled && !f.coupleEnabled then f.(toasts := f.toasts + [Toast(ErrorToast, PartnerNameMissing)]) else f
    case Create(_) => CreateCoupleStep(f, result)
    case Delete => DeleteCoupleStep(f, result)
  }

  /** The two outcomes of switching couple mode on. */
  lemma EnableSteps(f: Form, result: CallResult)
    requires !f.coupleEnabled
    ensures !PartnerNameOk(f.partnerName) ==>
      && CoupleRequestOf(true, false, f.partnerName, f.partnerEmail, f.permissions, false) == NoRequest
      && ToggleCoupleStep(f, true, false, result) == f.(toasts := f.toasts + [Toast(ErrorToast, PartnerNameMissing)])
    ensures PartnerNameOk(f.partnerName) ==>
      && CoupleRequestOf(true, false, f.partnerName, f.partnerEmail, f.permissions, false)
         == Create(CoupleData(Trim(f.partnerName), if Trim(f.partnerEmail) != "" then Some(Trim(f.partnerEmail)) else None, f.permissions))
      && ToggleCoupleStep(f, true, false, result) == CreateCoupleStep(f, result)
  {
  }

  function UpdateCoupleStep(f: Form, result: CallResult): (g: Form)
    ensures g.coupleEnabled == f.coupleEnabled && g.partnerName == f.partnerName
  {
    f.(toasts := f.toasts + [ResultToast(result, "Casal atualizado com sucesso!", "Erro ao atualizar casal")],
       refetches := f.refetches + (if result.Done? then 1 else 0),
       coupleLoading := false)
  }

  class SettingsForm {
    var name: string
    var email: string
    var currentPassword: string
    var newPassword: string
    var confirmPassword: string
    var coupleEnabled: bool
    var partnerName: string
    var partnerEmail: string
    var permissions: Permissions
    var profileLoading: bool
    var passwordLoading: bool
    var coupleLoading: bool
    var refetches: nat
    var toasts: seq<Toast>

    function State(): Form
      reads this
    {
      Form(name, email, currentPassword, newPassword, confirmPassword, coupleEnabled, partnerName,
           partnerEmail, permissions, profileLoading, passwordLoading, coupleLoading, refetches, toasts)
    }

    /** `updatePermission` applied to the page's matrix. */
    method SetPermission(section: string, action: string, value: bool)
      modifies this
      ensures State() == old(State()).(permissions := UpdatePermission(old(permissions), section, action, value))
    {
      var entry := if section in permissions then permissions[section] else map[];
      permissions := permissions[section := entry[action := value]];
    }

    /** `handleUpdateProfile`: the payload it sends, given the call's result. */
    method UpdateProfile(user: Option<Account>, result: CallResult) returns (sent: ProfileData)
      modifies this
      ensures sent == ProfilePayload(old(name), old(email), user)
      ensures State() == UpdateProfileStep(old(State()), result)
    {
      profileLoading := true;
      var nameField: Option<string> := None;
      var emailField: Option<string> := None;
      if user.None? || name != user.value.name {
        nameField := Some(name);
      }
      if user.None? || email != user.value.email {
        emailField := Some(email);
      }
      sent := ProfileData(nameField, emailField);
      if result.Done? {
        toasts := toasts + [Toast(SuccessToast, "Perfil atualizado com sucesso!")];
        refetches := refetches + 1;
      } else {
        toasts := toasts + [Toast(ErrorToast, ErrorMessage(result.message, "Erro ao atualizar perfil"))];
      }
      profileLoading := false;
    }

    /** `handleChangePassword`. */
    method ChangePassword(result: CallResult) returns (sent: Option<PasswordChange>)
      modifies this
      ensures sent == PasswordRequest(old(State()))
      ensures State() == ChangePasswordStep(old(State()), result)
    {
      if newPassword != confirmPassword {
        toasts := toasts + [Toast(ErrorToast, PasswordsDiffer)];
        return None;
      }
      passwordLoading := true;
      sent := Some(PasswordChange(currentPassword, newPassword, confirmPassword));
      FinishPasswordChange(result);
    }

    /** The settled password call: its toast, the three fields cleared on
        success, and the spinner off. */
    method FinishPasswordChange(result: CallResult)
      requires newPassword == confirmPassword
      modifies this
      ensures State() == ChangePasswordStep(old(State()), result)
    {
      if result.Done? {
        toasts := toasts + [Toast(SuccessToast, "Senha alterada com sucesso!")];
        currentPassword := "";
        newPassword := "";
        confirmPassword := "";
      } else {
        toasts := toasts + [Toast(ErrorToast, ErrorMessage(result.message, "Erro ao alterar senha"))];
      }
      passwordLoading := false;
    }

    method CreateCouple(result: CallResult)
      modifies this
      ensures State() == CreateCoupleStep(old(State()), result)
    {
      coupleLoading := true;
      if result.Done? {
        toasts := toasts + [Toast(SuccessToast, "Modo casal ativado com sucesso!")];
        coupleEnabled := true;
        refetches := refetches + 1;
      } else {
        toasts := toasts + [Toast(ErrorToast, ErrorMessage(result.message, "Erro ao ativar modo casal"))];
      }
      coupleLoading := false;
    }

    method DeleteCouple(result: CallResult)
      modifies this
      ensures State() == DeleteCoupleStep(old(State()), result)
    {
      coupleLoading := true;
      if result.Done? {
        toasts := toasts + [Toast(SuccessToast, "Modo casal desativado com sucesso!")];
        coupleEnabled := false;
        refetches := refetches + 1;
      } else {
        toasts := toasts + [Toast(ErrorToast, ErrorMessage(result.message, "Erro ao desativar modo casal"))];
      }
      coupleLoading := false;
    }

    /** The enabling branch of `handleToggleCouple`. */
    method EnableCouple(result: CallResult) returns (sent: CoupleRequest)
      requires !coupleEnabled
      modifies this
      ensures sent == CoupleRequestOf(true, false, old(partnerName), old(partnerEmail), old(permissions), false)
      ensures State() == ToggleCoupleStep(old(State()), true, false, result)
    {
      EnableSteps(State(), result);
      if partnerName == "" || |Trim(partnerName)| < 2 {
        toasts := toasts + [Toast(ErrorToast, PartnerNameMissing)];
        return NoRequest;
      }
      var email := Trim(partnerEmail);
      sent := Create(CoupleData(Trim(partnerName), if email != "" then Some(email) else None, permissions));
      CreateCouple(result);
    }

    /** The disabling branch of `handleToggleCouple`. */
    method DisableCouple(confirmed: bool, result: CallResult) returns (sent: CoupleRequest)
      requires coupleEnabled
      modifies this
      ensures sent == CoupleRequestOf(false, true, old(partnerName), old(partnerEmail), old(permissions), confirmed)
      ensures State() == ToggleCoupleStep(old(State()), false, confirmed, result)
    {
      if !confirmed {
        return NoRequest;
      }
      sent := Delete;
      DeleteCouple(result);
    }

    /** `handleToggleCouple`; `confirmed` is the user's answer to the confirmation dialog. */
    method ToggleCouple(enabled: bool, confirmed: bool, result: CallResult) returns (sent: CoupleRequest)
      modifies this
      ensures sent == CoupleRequestOf(enabled, old(coupleEnabled), old(partnerName), old(partnerEmail),
                                      old(permissions), confirmed)
      ensures State() == ToggleCoupleStep(old(State()), enabled, confirmed, result)
    {
      if enabled && !coupleEnabled {
        sent := EnableCouple(result);
      } else if !enabled && coupleEnabled {
        sent := DisableCouple(confirmed, result);
      } else {
        sent := NoRequest;
      }
    }

    /** `handleUpdateCouple`. */
    method UpdateCouple(result: CallResult) returns (sent: CoupleData)
      modifies this
      ensures sent == UpdateCouplePayload(old(partnerName), old(partnerEmail), old(permissions))
      ensures State() == UpdateCoupleStep(old(State()), result)
    {
      coupleLoading := true;
      sent := CoupleData(partnerName, if partnerEmail != "" then Some(partnerEmail) else None, permissions);
      if result.Done? {
        toasts := toasts + [Toast(SuccessToast, "Casal atualizado com sucesso!")];
        refetches := refetches + 1;
      } else {
        toasts := toasts + [Toast(ErrorToast, ErrorMessage(result.message, "Erro ao atualizar casal"))];
      }
      coupleLoading := false;
    }
  }
}
