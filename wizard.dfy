/**
 * The four-step avatar wizard (app/components/profile/VirtualAvatarWizard.tsx): photo,
 * basic information, measurements, confirmation. The component's state and refs are the
 * fields of a class; each handler is a method. A handler that awaits is split where it
 * awaits: the part before the await, and the part that runs when the reply arrives, with
 * the reply as a parameter. The browser's set of live object URLs is a field too, so
 * that revocation is visible.
 */
module AvatarWizard {
  import opened Common
  import opened Js
  import opened AvatarTypes
  import PhotoValidator
  import Base64

  // ---------------------------------------------------------------- client-side normalisers

  /** clampScore: `Math.min(100, Math.max(0, Math.round(value)))`, rounding first. */
  function ClampScore(n: Num): (r: Num)
    ensures r.NaN? <==> n.NaN?
    ensures r.Fin? ==> 0.0 <= r.r <= 100.0 && PhotoValidator.IsIntegral(r.r)
    ensures n.Fin? && PhotoValidator.IsIntegral(n.r) && 0.0 <= n.r <= 100.0 ==> r == n
  {
    PhotoValidator.RoundOfIntegral(if n.Fin? then n.r else 0.0);
    PhotoValidator.Clamp(PhotoValidator.Round(n), 0.0, 100.0)
  }

  /** Rounding then clamping (the wizard) agrees with clamping then rounding (the validator). */
  lemma ClampScoreMatchesValidator(n: Num)
    ensures ClampScore(n) == PhotoValidator.Round(PhotoValidator.Clamp(n, 0.0, 100.0))
  {
    if n.Fin? {
      var x := n.r;
      if x < 0.0 {
        assert (x + 0.5).Floor <= 0;
      } else if x > 100.0 {
        assert (x + 0.5).Floor >= 100;
      }
    }
  }

  /** One client score: the label trimmed or "Indicador" (a non-string label throws), the value `clampScore(Number(value ?? 0))`. */
  function NormalizeClientScore(score: JsValue): (r: Result<PhotoScore>)
    ensures r.Err? <==> var l := OptGet(score, "label"); !l.JStr? && !IsNullish(l)
    ensures r.Ok? ==> r.value.title == PhotoValidator.ScoreTitle(OptGet(score, "label"))
    ensures r.Ok? ==> r.value.value == ClampScore(ToNumber(Coalesce(OptGet(score, "value"), JNum(Fin(0.0)))))
  {
    var given := OptGet(score, "label");
    if !given.JStr? && !IsNullish(given) then Err(TypeError)
    else Ok(PhotoScore(PhotoValidator.ScoreTitle(given), ClampScore(ToNumber(Coalesce(OptGet(score, "value"), JNum(Fin(0.0)))))))
  }

  /** The wizard and the validator turn every score entry into the same score. */
  lemma ClientScoreIsValidatorScore(score: JsValue)
    ensures NormalizeClientScore(score) == PhotoValidator.NormalizeScore(score)
  {
    ClampScoreMatchesValidator(ToNumber(Coalesce(OptGet(score, "value"), JNum(Fin(0.0)))));
  }

  /**
   * normalizeClientPhotoScores: no array, or an empty one, gives the four default scores;
   * otherwise one score per entry, each labelled and rounded into [0, 100].
   */
  function NormalizeClientPhotoScores(scores: JsValue): (r: Result<seq<PhotoScore>>)
    ensures !scores.JArr? || scores.items == [] ==> r == Ok(DefaultPhotoScores)
    ensures scores.JArr? && scores.items != [] ==> r == MapResult(NormalizeClientScore, scores.items)
  {
    if !Truthy(scores) || !scores.JArr? || scores.items == [] then Ok(DefaultPhotoScores)
    else MapResult(NormalizeClientScore, scores.items)
  }

  /** Client scores are the validator's scores, and the defaults when there are none. */
  lemma ClientScoresAreWellFormed(scores: JsValue)
    requires NormalizeClientPhotoScores(scores).Ok?
    ensures |NormalizeClientPhotoScores(scores).value| >= 1
    ensures PhotoValidator.WellFormedScores(NormalizeClientPhotoScores(scores).value)
  {
    var r := NormalizeClientPhotoScores(scores).value;
    if scores.JArr? && scores.items != [] {
      forall i | 0 <= i < |r|
        ensures r[i].title != "" && IsTrimmed(r[i].title)
        ensures r[i].value.NaN? || (r[i].value.Fin? && 0.0 <= r[i].value.r <= 100.0 && PhotoValidator.IsIntegral(r[i].value.r))
      {
        ClientScoreIsValidatorScore(scores.items[i]);
      }
    } else {
      DefaultScoresAreWellFormed();
    }
  }

  lemma DefaultScoresAreWellFormed()
    ensures PhotoValidator.WellFormedScores(DefaultPhotoScores)
  {
    var d := DefaultPhotoScores;
    forall i | 0 <= i < |d|
      ensures d[i].title != "" && IsTrimmed(d[i].title)
      ensures d[i].value.Fin? && 0.0 <= d[i].value.r <= 100.0 && PhotoValidator.IsIntegral(d[i].value.r)
    {
    }
  }

  /** sanitizeClientList: trimmed non-empty strings, in order, with no cap and no throw. */
  function SanitizeClientList(values: JsValue): (r: seq<string>)
    ensures !values.JArr? ==> r == []
    ensures forall i :: 0 <= i < |r| ==> r[i] != "" && IsTrimmed(r[i])
    ensures values.JArr? && |values.items| == 1 ==>
      r == (if values.items[0].JStr? && Trim(values.items[0].s) != "" then [Trim(values.items[0].s)] else [])
    ensures values.JArr? ==> r == PhotoValidator.NonEmpty(PhotoValidator.TrimmedTexts(values.items))
  {
    if !values.JArr? then []
    else
      var t := PhotoValidator.TrimmedTexts(values.items);
      var r := PhotoValidator.NonEmpty(t);
      assert forall i :: 0 <= i < |r| ==> IsTrimmed(r[i]) by {
        forall i | 0 <= i < |r| ensures IsTrimmed(r[i]) {
          var j :| 0 <= j < |t| && t[j] == r[i];
          if values.items[j].JStr? { TrimIsTrimmed(values.items[j].s); }
        }
      }
      r
  }

  /**
   * The wizard's list is built entry by entry: the list of two arrays joined is the two
   * lists joined. With the one-entry case, this says which strings are kept and in what order.
   */
  lemma SanitizeClientListAppend(a: seq<JsValue>, b: seq<JsValue>)
    ensures SanitizeClientList(JArr(a + b)) == SanitizeClientList(JArr(a)) + SanitizeClientList(JArr(b))
  {
    var ta := PhotoValidator.TrimmedTexts(a);
    var tb := PhotoValidator.TrimmedTexts(b);
    PhotoValidator.TrimmedTextsAppend(a, b);
    PhotoValidator.NonEmptyAppend(ta, tb);
  }

  /** Where the validator's list succeeds, it is the wizard's list cut to six entries. */
  lemma ValidatorListIsClientListCapped(values: JsValue)
    requires PhotoValidator.SanitizeList(values).Ok?
    ensures PhotoValidator.SanitizeList(values).value == Take(SanitizeClientList(values), 6)
  {
    if values.JArr? {
      var t := MapResult(PhotoValidator.TrimEntry, values.items);
      assert t.Ok?;
      assert t.value == PhotoValidator.TrimmedTexts(values.items);
    }
  }

  // ---------------------------------------------------------------- the validation reply

  datatype Status = Idle | Loading | Approved | Rejected | Failed

  /** PhotoValidationState. */
  datatype ValidationState = ValidationState(status: Status, reasons: seq<string>, tips: seq<string>, scores: seq<PhotoScore>)

  const DefaultValidationState: ValidationState := ValidationState(Idle, [], [], DefaultPhotoScores)
  const LoadingState: ValidationState := ValidationState(Loading, [], [], [])

  const ValidationFailedMessage: string := "No pudimos validar tu foto."
  const ValidatingMessage: string := "Validando tu foto con IA..."
  const ApprovedMessage: string := "Foto validada. Continúa con el siguiente paso."
  const RejectedMessage: string := "Tu foto necesita ajustes antes de continuar."
  const NoPhotoMessage: string := "Sube una foto para generar tu avatar."
  const NotValidatedMessage: string := "Valida tu foto antes de continuar con el avatar."
  const SavingMessage: string := "Analizando tu colorimetría y guardando avatar..."
  const CreatedMessage: string := "Avatar generado correctamente"
  /** The message of the TypeError a non-string label raises (its engine text is not modelled). */
  const TypeErrorMessage: string := "TypeError"

  /** What the validation request gives: an HTTP answer with its JSON body (null when unparsable), or a rejection with its message. */
  datatype ValidationReply = Answered(ok: bool, payload: JsValue) | Unreachable(message: string)

  /** How the try block of runPhotoValidation ends: a new state and message, or a throw with its message. */
  datatype Settlement = Settled(state: ValidationState, message: string) | Thrown(message: string)

  /**
   * The try block of runPhotoValidation: a non-OK answer throws the payload's error or
   * a fixed message; an OK answer approves only for the exact verdict "approved", and
   * its lists and scores are normalised on the client.
   */
  function ValidationOutcome(reply: ValidationReply): (s: Settlement)
    ensures reply.Unreachable? ==> s == Thrown(reply.message)
    ensures reply.Answered? && !reply.ok ==>
      s == Thrown(if Truthy(OptGet(reply.payload, "error")) then JsString(OptGet(reply.payload, "error")) else ValidationFailedMessage)
    ensures s.Settled? ==> s.state.status in {Approved, Rejected}
    ensures s.Settled? ==> (s.state.status == Approved <==> OptGet(OptGet(reply.payload, "result"), "verdict") == JStr("approved"))
    ensures s.Settled? ==> s.message == (if s.state.status == Approved then ApprovedMessage else RejectedMessage)
    ensures s.Settled? ==> |s.state.scores| >= 1
    ensures reply.Answered? && reply.ok ==>
      var v := OptGet(reply.payload, "result");
      && (s.Thrown? <==> NormalizeClientPhotoScores(OptGet(v, "photoScores")).Err?)
      && (s.Thrown? ==> s.message == TypeErrorMessage)
      && (s.Settled? ==>
            && s.state.reasons == SanitizeClientList(OptGet(v, "reasons"))
            && s.state.tips == SanitizeClientList(OptGet(v, "tips"))
            && NormalizeClientPhotoScores(OptGet(v, "photoScores")) == Ok(s.state.scores))
  {
    match reply
    case Unreachable(m) => Thrown(m)
    case Answered(ok, payload) =>
      if !ok then
        var e := OptGet(payload, "error");
        Thrown(if Truthy(e) then JsString(e) else ValidationFailedMessage)
      else
        var validation := OptGet(payload, "result");
        var approved := OptGet(validation, "verdict") == JStr("approved");
        var scores := NormalizeClientPhotoScores(OptGet(validation, "photoScores"));
        if scores.Err? then Thrown(TypeErrorMessage)
        else
          ClientScoresAreWellFormed(OptGet(validation, "photoScores"));
          Settled(ValidationState(if approved then Approved else Rejected,
                                  SanitizeClientList(OptGet(validation, "reasons")),
                                  SanitizeClientList(OptGet(validation, "tips")),
                                  scores.value),
                  if approved then ApprovedMessage else RejectedMessage)
  }

  /** shouldShowReasons / shouldShowTips: never for an approved photo. */
  function ShouldShow(state: ValidationState): (r: (bool, bool))
    ensures state.status == Approved ==> r == (false, false)
    ensures state.status != Approved ==> (r.0 <==> state.reasons != []) && (r.1 <==> state.tips != [])
  {
    (state.status != Approved && |state.reasons| > 0, state.status != Approved && |state.tips| > 0)
  }

  // ---------------------------------------------------------------- the wizard

  const LastStep: int := 3

  /** A photo chosen in the file input. */
  datatype PhotoFile = PhotoFile(name: string, bytes: seq<Base64.byte>)

  datatype AvatarInfo = AvatarInfo(genero: string, tipoCuerpo: string, altura: string, peso: string)
  datatype Measurements = Measurements(busto: string, cintura: string, cadera: string, hombros: string)

  datatype InfoField = Genero | TipoCuerpo | Altura | Peso
  datatype MeasurementField = Busto | Cintura | Cadera | Hombros

  datatype StepStatus = Complete | Current | Upcoming

  /** The POST /api/avatar request handleCreateAvatar sends. */
  datatype CreateRequest = CreateRequest(avatarImage: PhotoFile, photoQuality: seq<PhotoScore>)

  /** What the create request gives: the saved avatar (if the reply has one), or a failure with its message. */
  datatype CreateReply = Created(avatar: Option<UserAvatarRecord>) | CreateFailed(message: string)

  /** What loading the stored avatar on mount gives. */
  datatype LoadReply = Loaded(ok: bool, avatar: Option<UserAvatarRecord>) | LoadFailed

  /** The component's useState values. */
  datatype Ui = Ui(
    currentStep: int,
    info: AvatarInfo,
    measurements: Measurements,
    validation: ValidationState,
    uploadedFile: Option<PhotoFile>,
    avatarCreated: bool,
    savedAvatar: Option<UserAvatarRecord>,
    photoPreview: string,
    photoName: string,
    statusMessage: Option<string>,
    isSaving: bool,
    showSuccessModal: bool)

  const InitialUi: Ui := Ui(0, AvatarInfo("Femenino", "Relajado", "168", "60"), Measurements("88", "68", "96", "40"),
                            DefaultValidationState, None, false, None, "/img/perfil.png", "avatar_demo.png",
                            None, false, false)

  /** canContinue: a validated photo on step 0, the four details on steps 1 and 2, nothing after. */
  function CanContinue(ui: Ui): (r: bool)
    ensures ui.currentStep == 0 ==> (r <==> ui.uploadedFile.Some? && ui.validation.status == Approved)
    ensures ui.currentStep == 1 ==>
      (r <==> ui.info.genero != "" && ui.info.tipoCuerpo != "" && ui.info.altura != "" && ui.info.peso != "")
    ensures ui.currentStep == 2 ==>
      (r <==> ui.measurements.busto != "" && ui.measurements.cintura != "" && ui.measurements.cadera != "" && ui.measurements.hombros != "")
    ensures ui.currentStep !in {0, 1, 2} ==> r
  {
    if ui.currentStep == 0 then ui.uploadedFile.Some? && ui.validation.status == Approved
    else if ui.currentStep == 1 then ui.info.genero != "" && ui.info.tipoCuerpo != "" && ui.info.altura != "" && ui.info.peso != ""
    else if ui.currentStep == 2 then
      ui.measurements.busto != "" && ui.measurements.cintura != "" && ui.measurements.cadera != "" && ui.measurements.hombros != ""
    else true
  }

  /** stepStatus: steps before the current one are complete, later ones upcoming. */
  function StepStatusOf(ui: Ui, index: int): (r: StepStatus)
    ensures r == Complete <==> index < ui.currentStep
    ensures r == Current <==> index == ui.currentStep
    ensures r == Upcoming <==> index > ui.currentStep
  {
    if index < ui.currentStep then Complete else if index == ui.currentStep then Current else Upcoming
  }

  function UrlSet(u: Option<string>): set<string> {
    if u.Some? then {u.value} else {}
  }

  function ControllerSet(c: Option<nat>): set<nat> {
    if c.Some? then {c.value} else {}
  }

  /** An avatar whose stored image is a non-empty string. */
  predicate HasImage(avatar: Option<UserAvatarRecord>) {
    avatar.Some? && avatar.value.imagenAvatar.Some? && avatar.value.imagenAvatar.value != ""
  }

  class Wizard {
    var ui: Ui
    /** objectUrlRef: the object URL this wizard created for the preview. */
    var objectUrl: Option<string>
    /** The browser's object URLs not yet revoked. */
    var liveUrls: set<string>
    /** validationControllerRef: the controller of the validation in flight, by number. */
    var controller: Option<nat>
    /** How many validations have started; validation c is the c-th. */
    var started: nat
    /** The validations whose controllers were aborted. */
    var aborted: set<nat>

    /**
     * The step is in [0, 3]; the only live object URL is the one the wizard holds; the
     * controller in flight belongs to a started validation and is not aborted.
     */
    predicate Valid()
      reads this
    {
      && 0 <= ui.currentStep <= LastStep
      && liveUrls == UrlSet(objectUrl)
      && (controller.Some? ==> controller.value < started && controller.value !in aborted)
      && (forall c :: c in aborted ==> c < started)
    }

    constructor ()
      ensures Valid()
      ensures ui == InitialUi && objectUrl == None && liveUrls == {} && controller == None && started == 0 && aborted == {}
    {
      ui := InitialUi;
      objectUrl := None;
      liveUrls := {};
      controller := None;
      started := 0;
      aborted := {};
    }

    /** goNext: one step forward, nothing on the last step. */
    method GoNext()
      requires Valid()
      modifies this`ui
      ensures Valid()
      ensures ui == old(ui).(currentStep := if old(ui.currentStep) == LastStep then LastStep else old(ui.currentStep) + 1)
    {
      if ui.currentStep == LastStep {
        return;
      }
      ui := ui.(currentStep := if ui.currentStep + 1 < LastStep then ui.currentStep + 1 else LastStep);
    }

    /** goPrev: one step back, never below 0. */
    method GoPrev()
      requires Valid()
      modifies this`ui
      ensures Valid()
      ensures ui == old(ui).(currentStep := if old(ui.currentStep) > 0 then old(ui.currentStep) - 1 else 0)
    {
      ui := ui.(currentStep := if ui.currentStep - 1 > 0 then ui.currentStep - 1 else 0);
    }

    /** The Continue button: shown before the last step and disabled unless canContinue. */
    method PressContinue()
      requires Valid()
      modifies this`ui
      ensures Valid()
      ensures old(ui.currentStep) < LastStep && old(CanContinue(ui)) ==> ui == old(ui).(currentStep := old(ui.currentStep) + 1)
      ensures !(old(ui.currentStep) < LastStep && old(CanContinue(ui))) ==> ui == old(ui)
      ensures old(ui.currentStep) == 0 && ui.currentStep == 1 ==> ui.uploadedFile.Some? && ui.validation.status == Approved
    {
      if ui.currentStep < LastStep && CanContinue(ui) {
        GoNext();
      }
    }

    /** handleInfoChange: the field takes the value and the avatar counts as not created. */
    method ChangeInfo(field: InfoField, value: string)
      requires Valid()
      modifies this`ui
      ensures Valid()
      ensures ui == old(ui).(avatarCreated := false, info :=
        match field
        case Genero => old(ui.info).(genero := value)
        case TipoCuerpo => old(ui.info).(tipoCuerpo := value)
        case Altura => old(ui.info).(altura := value)
        case Peso => old(ui.info).(peso := value))
    {
      var info := match field
        case Genero => ui.info.(genero := value)
        case TipoCuerpo => ui.info.(tipoCuerpo := value)
        case Altura => ui.info.(altura := value)
        case Peso => ui.info.(peso := value);
      ui := ui.(info := info, avatarCreated := false);
    }

    /** handleMeasurementChange: the field takes the value and the avatar counts as not created. */
    method ChangeMeasurement(field: MeasurementField, value: string)
      requires Valid()
      modifies this`ui
      ensures Valid()
      ensures ui == old(ui).(avatarCreated := false, measurements :=
        match field
        case Busto => old(ui.measurements).(busto := value)
        case Cintura => old(ui.measurements).(cintura := value)
        case Cadera => old(ui.measurements).(cadera := value)
        case Hombros => old(ui.measurements).(hombros := value))
    {
      var m := match field
        case Busto => ui.measurements.(busto := value)
        case Cintura => ui.measurements.(cintura := value)
        case Cadera => ui.measurements.(cadera := value)
        case Hombros => ui.measurements.(hombros := value);
      ui := ui.(measurements := m, avatarCreated := false);
    }

    /** Revokes the wizard's object URL, if any, and forgets it. */
    method RevokeObjectUrl()
      requires Valid()
      modifies this`objectUrl, this`liveUrls
      ensures Valid()
      ensures objectUrl == None && liveUrls == {}
    {
      if objectUrl.Some? {
        liveUrls := liveUrls - {objectUrl.value};
        objectUrl := None;
      }
    }

    /**
     * runPhotoValidation up to its await: the validation in flight is aborted, a new one
     * (number c) takes its place, and the state is loading with empty lists.
     */
    method RunPhotoValidation() returns (c: nat)
      requires Valid()
      modifies this`ui, this`controller, this`started, this`aborted
      ensures Valid()
      ensures c == old(started) && controller == Some(c) && started == c + 1
      ensures aborted == old(aborted) + ControllerSet(old(controller))
      ensures ui == old(ui).(validation := LoadingState, statusMessage := Some(ValidatingMessage))
    {
      if controller.Some? {
        aborted := aborted + {controller.value};
        controller := None;
      }
      c := started;
      started := started + 1;
      controller := Some(c);
      ui := ui.(validation := LoadingState, statusMessage := Some(ValidatingMessage));
    }

    /**
     * runPhotoValidation after its await, for validation c: a settled reply sets the
     * state and message; a throw leaves the state alone when c was aborted, and
     * otherwise reports the error with its message as the only reason and the default
     * scores. Either way the controller is cleared if it is still c's.
     */
    method FinishPhotoValidation(c: nat, reply: ValidationReply)
      requires Valid() && c < started
      modifies this`ui, this`controller
      ensures Valid()
      ensures controller == if old(controller) == Some(c) then None else old(controller)
      ensures var s := ValidationOutcome(reply);
        && (s.Settled? ==> ui == old(ui).(validation := s.state, statusMessage := Some(s.message)))
        && (s.Thrown? && c in aborted ==> ui == old(ui))
        && (s.Thrown? && c !in aborted ==>
              ui == old(ui).(validation := ValidationState(Failed, [s.message], [], DefaultPhotoScores),
                             statusMessage := Some(s.message)))
    {
      var s := ValidationOutcome(reply);
      if s.Settled? {
        ui := ui.(validation := s.state, statusMessage := Some(s.message));
      } else if c !in aborted {
        ui := ui.(validation := ValidationState(Failed, [s.message], [], DefaultPhotoScores), statusMessage := Some(s.message));
      }
      if controller == Some(c) {
        controller := None;
      }
    }

    /**
     * handlePhotoChange: with no file nothing happens; otherwise the old object URL is
     * revoked, `url` (fresh from createObjectURL) becomes the preview, the avatar counts
     * as not created, and a new validation starts.
     */
    method HandlePhotoChange(file: Option<PhotoFile>, url: string) returns (c: Option<nat>)
      requires Valid() && url !in liveUrls
      modifies this
      ensures Valid()
      ensures file.None? ==> c.None? && ui == old(ui) && objectUrl == old(objectUrl) && liveUrls == old(liveUrls)
                             && controller == old(controller) && started == old(started) && aborted == old(aborted)
      ensures file.Some? ==>
        && c == Some(old(started)) && controller == c && started == old(started) + 1
        && aborted == old(aborted) + ControllerSet(old(controller))
        && objectUrl == Some(url) && liveUrls == {url}
        && ui == old(ui).(photoPreview := url, photoName := file.value.name, avatarCreated := false,
                          uploadedFile := file, showSuccessModal := false,
                          validation := LoadingState, statusMessage := Some(ValidatingMessage))
    {
      if file.None? {
        return None;
      }
      RevokeObjectUrl();
      liveUrls := liveUrls + {url};
      objectUrl := Some(url);
      ui := ui.(photoPreview := url, photoName := file.value.name, avatarCreated := false,
                uploadedFile := file, showSuccessModal := false, statusMessage := None);
      var n := RunPhotoValidation();
      c := Some(n);
    }

    /**
     * handleCreateAvatar up to the request: no file sends nothing; a photo that is not
     * approved sends nothing and goes back to step 0; otherwise the request carries the
     * file and the validated scores (the defaults when there are none).
     */
    method HandleCreateAvatar() returns (request: Option<CreateRequest>)
      requires Valid()
      modifies this`ui
      ensures Valid()
      ensures request.Some? <==> old(ui.uploadedFile).Some? && old(ui.validation).status == Approved
      ensures old(ui.uploadedFile).None? ==>
        ui == old(ui).(statusMessage := Some(NoPhotoMessage))
      ensures old(ui.uploadedFile).Some? && old(ui.validation).status != Approved ==>
        ui == old(ui).(statusMessage := Some(NotValidatedMessage), currentStep := 0)
      ensures request.Some? ==>
        && request.value.avatarImage == old(ui.uploadedFile).value
        && request.value.photoQuality == (if old(ui.validation).scores != [] then old(ui.validation).scores else DefaultPhotoScores)
        && ui == old(ui).(isSaving := true, statusMessage := Some(SavingMessage))
    {
      if ui.uploadedFile.None? {
        ui := ui.(statusMessage := Some(NoPhotoMessage));
        return None;
      }
      if ui.validation.status != Approved {
        ui := ui.(statusMessage := Some(NotValidatedMessage), currentStep := 0);
        return None;
      }
      var scores := if ui.validation.scores != [] then ui.validation.scores else DefaultPhotoScores;
      request := Some(CreateRequest(ui.uploadedFile.value, scores));
      ui := ui.(isSaving := true, statusMessage := Some(SavingMessage));
    }

    /**
     * handleCreateAvatar after the reply: a saved avatar marks the avatar created, and a
     * stored image replaces the preview, revoking the object URL; a failure only shows
     * its message. Saving ends either way.
     */
    method FinishCreateAvatar(reply: CreateReply)
      requires Valid()
      modifies this`ui, this`objectUrl, this`liveUrls
      ensures Valid()
      ensures reply.CreateFailed? ==>
        ui == old(ui).(statusMessage := Some(reply.message), isSaving := false) && objectUrl == old(objectUrl)
      ensures reply.Created? && !HasImage(reply.avatar) ==>
        && objectUrl == old(objectUrl)
        && ui == old(ui).(avatarCreated := true, statusMessage := Some(CreatedMessage),
                          savedAvatar := if reply.avatar.Some? then reply.avatar else old(ui.savedAvatar),
                          showSuccessModal := true, isSaving := false)
      ensures reply.Created? && HasImage(reply.avatar) ==>
        && objectUrl == None && liveUrls == {}
        && ui == old(ui).(avatarCreated := true, statusMessage := Some(CreatedMessage),
                          savedAvatar := reply.avatar, photoPreview := reply.avatar.value.imagenAvatar.value,
                          photoName := "avatar_generado.png", showSuccessModal := true, isSaving := false)
    {
      if reply.CreateFailed? {
        ui := ui.(statusMessage := Some(reply.message), isSaving := false);
        return;
      }
      ui := ui.(avatarCreated := true, statusMessage := Some(CreatedMessage));
      if reply.avatar.Some? {
        ui := ui.(savedAvatar := reply.avatar);
        if HasImage(reply.avatar) {
          RevokeObjectUrl();
          ui := ui.(photoPreview := reply.avatar.value.imagenAvatar.value, photoName := "avatar_generado.png");
        }
      }
      ui := ui.(showSuccessModal := true, isSaving := false);
    }

    /**
     * loadStoredAvatar after its reply: a cancelled load, a failed one or one without an
     * avatar changes nothing; otherwise the avatar is shown as created, and its stored
     * image replaces the preview, revoking the object URL.
     */
    method LoadStoredAvatar(reply: LoadReply, cancelled: bool)
      requires Valid()
      modifies this`ui, this`objectUrl, this`liveUrls
      ensures Valid()
      ensures cancelled || reply.LoadFailed? || !reply.ok || reply.avatar.None? ==>
        ui == old(ui) && objectUrl == old(objectUrl)
      ensures !cancelled && reply.Loaded? && reply.ok && reply.avatar.Some? && !HasImage(reply.avatar) ==>
        ui == old(ui).(savedAvatar := reply.avatar, avatarCreated := true) && objectUrl == old(objectUrl)
      ensures !cancelled && reply.Loaded? && reply.ok && HasImage(reply.avatar) ==>
        && objectUrl == None && liveUrls == {}
        && ui == old(ui).(savedAvatar := reply.avatar, avatarCreated := true,
                          photoPreview := reply.avatar.value.imagenAvatar.value, photoName := "avatar_guardado.png")
    {
      if cancelled || reply.LoadFailed? || !reply.ok || reply.avatar.None? {
        return;
      }
      ui := ui.(savedAvatar := reply.avatar, avatarCreated := true);
      if HasImage(reply.avatar) {
        RevokeObjectUrl();
        ui := ui.(photoPreview := reply.avatar.value.imagenAvatar.value, photoName := "avatar_guardado.png");
      }
    }

    /** The unmount cleanup: the object URL is revoked (the ref keeps it) and the validation in flight is aborted. */
    method Unmount()
      requires Valid()
      modifies this`liveUrls, this`controller, this`aborted
      ensures liveUrls == {} && controller == None
      ensures aborted == old(aborted) + ControllerSet(old(controller))
    {
      if objectUrl.Some? {
        liveUrls := liveUrls - {objectUrl.value};
      }
      if controller.Some? {
        aborted := aborted + {controller.value};
        controller := None;
      }
    }
  }

  /**
   * A new photo supersedes the validation in flight: once the superseded one fails (its
   * abort makes its fetch reject), the wizard is as the new photo left it.
   */
  method SupersededValidationIsIgnored(w: Wizard, first: PhotoFile, second: PhotoFile, url1: string, url2: string, message: string)
    requires w.Valid() && url1 !in w.liveUrls && url1 != url2
    modifies w
    ensures w.Valid()
    ensures w.ui.uploadedFile == Some(second) && w.ui.validation == LoadingState
    ensures w.objectUrl == Some(url2) && w.liveUrls == {url2}
  {
    var c1 := w.HandlePhotoChange(Some(first), url1);
    var c2 := w.HandlePhotoChange(Some(second), url2);
    w.FinishPhotoValidation(c1.value, Unreachable(message));
  }
}
