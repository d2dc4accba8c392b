/** Who may reach a binding: packages/messaging-gateway/src/access-control.ts and the binding defaults
    of packages/messaging-gateway/src/types.ts. */
module AccessPolicy {
  import opened JsText
  import opened Messaging
  import opened Wrappers

  datatype ResponseMode = Streaming | Progress | FinalOnly
  datatype ApprovalChannel = Chat | App
  datatype BindingMode = Inherit | AllowList | Open
  datatype PlatformMode = Public | OwnerOnly

  datatype BindingConfig = BindingConfig(
    responseMode: ResponseMode, streamResponses: bool, showToolActivity: bool, approvalChannel: ApprovalChannel,
    editIntervalMs: int, accessMode: BindingMode, allowedSenderIds: seq<Text>)

  /** A config in which any field may be missing. */
  datatype PartialConfig = PartialConfig(
    responseMode: Option<ResponseMode>, streamResponses: Option<bool>, showToolActivity: Option<bool>,
    approvalChannel: Option<ApprovalChannel>, editIntervalMs: Option<int>, accessMode: Option<BindingMode>,
    allowedSenderIds: Option<seq<Text>>)

  const NOTHING := PartialConfig(None, None, None, None, None, None, None)

  function Default(p: Platform): BindingConfig {
    BindingConfig(Progress, true, false, if p == WhatsApp then App else Chat, 3500, Inherit, [])
  }

  function Normalize(p: Platform, config: Option<PartialConfig>): BindingConfig {
    var base := Default(p);
    match config
    case None => base
    case Some(c) =>
      BindingConfig(
        Or(c.responseMode, if c.streamResponses == Some(false) then FinalOnly
                           else if c.streamResponses == Some(true) then Streaming else base.responseMode),
        Or(c.streamResponses, base.streamResponses), Or(c.showToolActivity, base.showToolActivity),
        if p == WhatsApp then App else Or(c.approvalChannel, base.approvalChannel),
        Or(c.editIntervalMs, base.editIntervalMs), Or(c.accessMode, Open), Or(c.allowedSenderIds, []))
  }

  /** A full config with the given fields of a patch laid over it. */
  function Overlay(full: BindingConfig, patch: PartialConfig): PartialConfig {
    PartialConfig(
      Some(Or(patch.responseMode, full.responseMode)), Some(Or(patch.streamResponses, full.streamResponses)),
      Some(Or(patch.showToolActivity, full.showToolActivity)), Some(Or(patch.approvalChannel, full.approvalChannel)),
      Some(Or(patch.editIntervalMs, full.editIntervalMs)), Some(Or(patch.accessMode, full.accessMode)),
      Some(Or(patch.allowedSenderIds, full.allowedSenderIds)))
  }

  /** A new binding inherits exactly when no config is given or the config says so: a config without an
      access mode is taken for one written before access control, and is open. */
  lemma {:induction false} NormalizedModeIff(p: Platform, config: Option<PartialConfig>)
    ensures Normalize(p, config).accessMode == Open
            <==> config.Some? && (config.value.accessMode.None? || config.value.accessMode == Some(Open))
    ensures Normalize(p, config).accessMode == Inherit <==> config.None? || config.value.accessMode == Some(Inherit)
    ensures p == WhatsApp ==> Normalize(p, config).approvalChannel == App
  {
  }

  /** Normalizing again, as every load and every in-place update does, changes nothing that was not asked for. */
  lemma {:induction false} NormalizeAgain(p: Platform, config: Option<PartialConfig>)
    ensures Normalize(p, Some(Overlay(Normalize(p, config), NOTHING))) == Normalize(p, config)
  {
    var c := Normalize(p, config);
    assert Overlay(c, NOTHING).accessMode == Some(c.accessMode);
    if p == WhatsApp { assert c.approvalChannel == App; }
  }

  /** Patching a binding changes exactly the fields the patch names; on WhatsApp approvals stay in the app. */
  lemma {:induction false} PatchChangesWhatItNames(p: Platform, full: BindingConfig, patch: PartialConfig)
    ensures var c := Normalize(p, Some(Overlay(full, patch)));
            && (patch.responseMode != None ==> Some(c.responseMode) == patch.responseMode)
            && (patch.responseMode == None ==> c.responseMode == full.responseMode)
            && (patch.streamResponses != None ==> Some(c.streamResponses) == patch.streamResponses)
            && (patch.streamResponses == None ==> c.streamResponses == full.streamResponses)
            && (patch.showToolActivity != None ==> Some(c.showToolActivity) == patch.showToolActivity)
            && (patch.showToolActivity == None ==> c.showToolActivity == full.showToolActivity)
            && (patch.editIntervalMs != None ==> Some(c.editIntervalMs) == patch.editIntervalMs)
            && (patch.editIntervalMs == None ==> c.editIntervalMs == full.editIntervalMs)
            && (patch.accessMode != None ==> Some(c.accessMode) == patch.accessMode)
            && (patch.accessMode == None ==> c.accessMode == full.accessMode)
            && (patch.allowedSenderIds != None ==> Some(c.allowedSenderIds) == patch.allowedSenderIds)
            && (patch.allowedSenderIds == None ==> c.allowedSenderIds == full.allowedSenderIds)
            && (p == WhatsApp ==> c.approvalChannel == App)
            && (p != WhatsApp && patch.approvalChannel != None ==> Some(c.approvalChannel) == patch.approvalChannel)
            && (p != WhatsApp && patch.approvalChannel == None ==> c.approvalChannel == full.approvalChannel)
  {
  }

  /* ---- Workspace config and verdicts ---- */

  datatype Owner = Owner(userId: Text, displayName: Option<Text>, username: Option<Text>, addedAt: int)

  datatype TelegramConfig = TelegramConfig(
    enabled: bool, supergroup: Option<Text>, accessMode: Option<PlatformMode>, owners: Option<seq<Owner>>)

  /** For the other platforms only their enabled flag is kept here. */
  datatype Config = Config(enabled: bool, telegram: Option<TelegramConfig>, whatsapp: Option<bool>, lark: Option<bool>)

  datatype Sender = Sender(platform: Platform, userId: Text, isBot: bool)

  datatype Decision = Allow | Reject(reason: RejectReason)

  function PlatformModeOf(config: Config, p: Platform): PlatformMode {
    if p != Telegram || config.telegram.None? then Public else Or(config.telegram.value.accessMode, Public)
  }

  function OwnersOf(config: Config, p: Platform): seq<Owner> {
    if p != Telegram || config.telegram.None? then [] else Or(config.telegram.value.owners, [])
  }

  predicate IsOwner(config: Config, sender: Sender) {
    exists o :: o in OwnersOf(config, sender.platform) && o.userId == sender.userId
  }

  function EvaluatePreBinding(sender: Sender, config: Config): Decision {
    if sender.isBot then Reject(BotSender)
    else if PlatformModeOf(config, sender.platform) == Public then Allow
    else if IsOwner(config, sender) then Allow
    else Reject(NotOwner)
  }

  function EvaluateBinding(sender: Sender, config: Config, binding: BindingConfig): Decision {
    if sender.isBot then Reject(BotSender)
    else
      match binding.accessMode
      case Open => Allow
      case AllowList => if sender.userId in binding.allowedSenderIds then Allow else Reject(NotOnBindingAllowlist)
      case Inherit =>
        if PlatformModeOf(config, sender.platform) == Public then Allow
        else if IsOwner(config, sender) then Allow
        else Reject(NotOwner)
  }

  /** A binding that inherits decides as the workspace does. */
  lemma {:induction false} InheritIsWorkspacePolicy(sender: Sender, config: Config, binding: BindingConfig)
    requires binding.accessMode == Inherit
    ensures EvaluateBinding(sender, config, binding) == EvaluatePreBinding(sender, config)
  {
  }

  /** In any workspace, a message on a binding passes exactly when its sender is no bot and the binding is
      open, lists the sender, or inherits from a public workspace or from one the sender owns. */
  lemma {:induction false} AdmittedIff(sender: Sender, config: Config, binding: BindingConfig)
    ensures EvaluateBinding(sender, config, binding) == Allow <==>
            && !sender.isBot
            && (|| binding.accessMode == Open
                || (binding.accessMode == AllowList && sender.userId in binding.allowedSenderIds)
                || (binding.accessMode == Inherit
                    && (sender.platform != Telegram || config.telegram.None? || config.telegram.value.accessMode != Some(OwnerOnly)
                        || (config.telegram.value.owners.Some?
                            && exists o :: o in config.telegram.value.owners.value && o.userId == sender.userId))))
    ensures EvaluateBinding(sender, config, binding) == Reject(NotOnBindingAllowlist) ==> binding.accessMode == AllowList
    ensures EvaluateBinding(sender, config, binding) == Reject(NotOwner) ==> binding.accessMode == Inherit
    ensures EvaluateBinding(sender, config, binding) == Reject(BotSender) <==> sender.isBot
  {
  }
}
