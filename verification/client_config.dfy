/**
 * The OAuth client setup form (client/src/ClientConfig.jsx): it reads back
 * whether a client is configured, and posts the client id, secret and an
 * optional redirect URI. The redirect URI is sent trimmed, and only when
 * something is left after trimming.
 */
module Setup {
  import opened Domain
  import opened Text

  const SaveFailedMessage := "Failed to save. Check values."

  /** The JSON values the server may send where the form expects a flag. */
  datatype JsValue = Undefined | Null | Bool(b: bool) | Number(n: int) | Str(s: string) | Object

  /** `Boolean(v)`. */
  predicate Truthy(v: JsValue)
  {
    match v
    case Undefined => false
    case Null => false
    case Bool(b) => b
    case Number(n) => n != 0
    case Str(s) => s != ""
    case Object => true
  }

  /** Body of `GET /auth/client-config`. */
  datatype ConfigBody = ConfigBody(configured: JsValue, config: Option<StoredConfig>)
  datatype StoredConfig = StoredConfig(redirectUri: Option<string>)

  /** What `save` posts to `/auth/client-config`; `redirectUri` is absent when not sent. */
  datatype Payload = Payload(clientId: string, clientSecret: string, redirectUri: Option<string>)

  datatype Form = Form(
    clientId: string,
    clientSecret: string,
    redirectUri: string,
    configured: bool,
    saving: bool,
    error: string)

  const Empty := Form("", "", "", false, false, "")

  /**
   * The payload `save` builds: id and secret exactly as entered; the redirect
   * URI trimmed, and present exactly when its trimmed value is not empty.
   */
  function BuildPayload(clientId: string, clientSecret: string, redirectUri: string): (p: Payload)
    ensures p.clientId == clientId && p.clientSecret == clientSecret
    ensures p.redirectUri.Some? <==> exists i :: 0 <= i < |redirectUri| && !IsWhitespace(redirectUri[i])
    ensures p.redirectUri.Some? ==> p.redirectUri.value == Trim(redirectUri)
    ensures p.redirectUri.Some? ==> !IsWhitespace(p.redirectUri.value[0])
  {
    if redirectUri != "" && |Trim(redirectUri)| > 0
    then Payload(clientId, clientSecret, Some(Trim(redirectUri)))
    else Payload(clientId, clientSecret, None)
  }

  /** Typing back the redirect URI that was sent builds the same payload again. */
  lemma PayloadStable(clientId: string, clientSecret: string, redirectUri: string)
    requires BuildPayload(clientId, clientSecret, redirectUri).redirectUri.Some?
    ensures var p := BuildPayload(clientId, clientSecret, redirectUri);
      BuildPayload(clientId, clientSecret, p.redirectUri.value) == p
  {
    TrimIdempotent(redirectUri);
  }

  /**
   * The form submits only when both required inputs are filled in and the
   * Save button is not disabled by a save in progress.
   */
  predicate CanSubmit(f: Form)
  {
    !f.saving && f.clientId != "" && f.clientSecret != ""
  }

  /** `save` up to its await: `saving` raised, error cleared, payload built. */
  function BeginSave(f: Form): (step: (Form, Payload))
    ensures step.0.saving && step.0.error == ""
    ensures step.0.(saving := f.saving, error := f.error) == f
    ensures step.1 == BuildPayload(f.clientId, f.clientSecret, f.redirectUri)
  {
    (f.(saving := true, error := ""), BuildPayload(f.clientId, f.clientSecret, f.redirectUri))
  }

  /**
   * The rest of `save`: a successful post marks the client configured; a
   * failed one sets the error and leaves `configured` as it was. `saving`
   * ends false either way.
   */
  function SettleSave(f: Form, posted: bool): (g: Form)
    ensures !g.saving
    ensures posted ==> g.configured && g.error == f.error
    ensures !posted ==> g.configured == f.configured && g.error == SaveFailedMessage
    ensures g.clientId == f.clientId && g.clientSecret == f.clientSecret && g.redirectUri == f.redirectUri
  {
    if posted then f.(configured := true, saving := false)
    else f.(error := SaveFailedMessage, saving := false)
  }

  /** A whole `save`: the error shown afterwards is the outcome of this save alone. */
  lemma SaveCycle(f: Form, posted: bool)
    ensures var g := SettleSave(BeginSave(f).0, posted);
      && !g.saving
      && (posted ==> g.configured && g.error == "")
      && (!posted ==> g.configured == f.configured && g.error == SaveFailedMessage)
  {
  }

  /**
   * `load`: `configured` becomes the truthiness of the answer's flag, and the
   * redirect URI is overwritten only by a non-empty stored one. A failed
   * request changes nothing.
   */
  function ApplyLoaded(f: Form, r: Response<ConfigBody>): (g: Form)
    ensures r.Failed? ==> g == f
    ensures r.Ok? ==> g.configured == Truthy(r.data.configured)
    ensures r.Ok? && r.data.config.Some? && r.data.config.value.redirectUri.Some?
            && r.data.config.value.redirectUri.value != ""
            ==> g.redirectUri == r.data.config.value.redirectUri.value
    ensures g.(configured := f.configured, redirectUri := f.redirectUri) == f
    ensures !(r.Ok? && r.data.config.Some? && r.data.config.value.redirectUri.Some?
              && r.data.config.value.redirectUri.value != "")
            ==> g.redirectUri == f.redirectUri
  {
    match r
    case Failed => f
    case Ok(body) =>
      var f1 := f.(configured := Truthy(body.configured));
      if body.config.Some? && body.config.value.redirectUri.Some? && body.config.value.redirectUri.value != ""
      then f1.(redirectUri := body.config.value.redirectUri.value)
      else f1
  }

  /** Loading never clears a non-empty redirect URI; it can only replace it by a non-empty stored one. */
  lemma LoadNeverClearsRedirect(f: Form, r: Response<ConfigBody>)
    requires f.redirectUri != ""
    ensures ApplyLoaded(f, r).redirectUri != ""
  {
  }

  /** The form's state, updated in place as the component's setters do. */
  class ClientConfig {
    var clientId: string
    var clientSecret: string
    var redirectUri: string
    var configured: bool
    var saving: bool
    var error: string

    function State(): Form
      reads this
    {
      Form(clientId, clientSecret, redirectUri, configured, saving, error)
    }

    constructor ()
      ensures State() == Empty
    {
      clientId, clientSecret, redirectUri := "", "", "";
      configured, saving, error := false, false, "";
    }

    /** The three inputs' onChange handlers. */
    method Edit(clientId: string, clientSecret: string, redirectUri: string)
      modifies this
      ensures State() == old(State()).(clientId := clientId, clientSecret := clientSecret, redirectUri := redirectUri)
    {
      this.clientId, this.clientSecret, this.redirectUri := clientId, clientSecret, redirectUri;
    }

    /** `load`, run once on mount, with the answer of its request. */
    method Load(r: Response<ConfigBody>)
      modifies this
      ensures State() == ApplyLoaded(old(State()), r)
    {
      match r {
        case Ok(data) =>
          configured := Truthy(data.configured);
          if data.config.Some? && data.config.value.redirectUri.Some? && data.config.value.redirectUri.value != "" {
            redirectUri := data.config.value.redirectUri.value;
          }
        case Failed =>
      }
    }

    /** `save` up to its await. */
    method Save() returns (payload: Payload)
      requires CanSubmit(State())
      modifies this
      ensures (State(), payload) == BeginSave(old(State()))
    {
      saving := true;
      error := "";
      payload := BuildPayload(clientId, clientSecret, redirectUri);
    }

    /** The rest of `save`, once the post has settled. */
    method SaveSettled(posted: bool)
      modifies this
      ensures State() == SettleSave(old(State()), posted)
    {
      if posted {
        configured := true;
      } else {
        error := SaveFailedMessage;
      }
      saving := false;
    }
  }
}
