/** The interview call panel: creating, joining, ending and leaving a
    conversation, the mute, video and controls toggles, and the updaters of
    the creation settings. The Tavus service calls are parameters. */
module TavusConversation {
  import opened Wrappers
  import opened TavusContext

  const NoApiKey := "Tavus API key not found. Please check your environment configuration."
  const CreateFailed := "Failed to create conversation"
  const EndFailed := "Failed to end conversation"

  // ------------------------------------------------- transitions on values

  /** A created conversation is stored; nothing else changes. */
  function Created(c: CallState, conv: Conversation): CallState {
    c.(conversation := Some(conv))
  }

  /** Join: only with a non-empty conversation URL; it enters the call and
      hides the controls. */
  function Joined(c: CallState): CallState {
    if UrlOf(c.conversation).Some? then c.(isInCall := true, isControlsVisible := false) else c
  }

  /** What a successful end, and every leave, makes of the call. */
  function Ended(c: CallState): CallState {
    c.(conversation := None, isInCall := false, isControlsVisible := true)
  }

  function VideoToggled(c: CallState): CallState {
    c.(isVideoEnabled := !c.isVideoEnabled)
  }

  function MuteToggled(c: CallState): CallState {
    c.(isMuted := !c.isMuted)
  }

  function ControlsToggled(c: CallState): CallState {
    c.(isControlsVisible := !c.isControlsVisible)
  }

  /** Every transition keeps a call tied to an existing conversation. */
  lemma TransitionsKeepConsistent(c: CallState, conv: Conversation)
    requires Consistent(c)
    ensures Consistent(Created(c, conv)) && Consistent(Joined(c)) && Consistent(Ended(c))
    ensures Consistent(VideoToggled(c)) && Consistent(MuteToggled(c)) && Consistent(ControlsToggled(c))
  {
  }

  /** Joining enters the call exactly when there is a conversation with a
      non-empty URL, and then the controls are hidden; otherwise nothing changes. */
  lemma JoinSpec(c: CallState)
    ensures Joined(c).isInCall <==> c.isInCall || (c.conversation.Some? && c.conversation.value.conversationUrl != "")
    ensures (c.conversation.None? || c.conversation.value.conversationUrl == "") ==> Joined(c) == c
    ensures Joined(c).conversation == c.conversation
    ensures Joined(Joined(c)) == Joined(c)
  {
  }

  /** The toggles are negations: each undoes itself, and they touch
      different fields, so their order does not matter. */
  lemma TogglesAreInvolutions(c: CallState)
    ensures VideoToggled(VideoToggled(c)) == c
    ensures MuteToggled(MuteToggled(c)) == c
    ensures ControlsToggled(ControlsToggled(c)) == c
    ensures MuteToggled(VideoToggled(c)) == VideoToggled(MuteToggled(c))
    ensures VideoToggled(c) != c && MuteToggled(c) != c && ControlsToggled(c) != c
  {
  }

  /** Ending leaves no conversation and no call, keeps mute and video, and
      ending twice is ending once; the panel can be joined again only after
      a new conversation is created. */
  lemma EndSpec(c: CallState)
    ensures Ended(c).conversation.None? && !Ended(c).isInCall && Ended(c).isControlsVisible
    ensures Ended(c).isMuted == c.isMuted && Ended(c).isVideoEnabled == c.isVideoEnabled
    ensures Ended(Ended(c)) == Ended(c)
    ensures Joined(Ended(c)) == Ended(c)
  {
  }

  /** A freshly created conversation with a URL can be joined, and leaving
      afterwards gives the state before the creation minus its conversation. */
  lemma CreateJoinLeave(c: CallState, conv: Conversation)
    requires conv.conversationUrl != ""
    ensures Joined(Created(c, conv)).isInCall && !Joined(Created(c, conv)).isControlsVisible
    ensures Ended(Joined(Created(c, conv))) == Ended(c)
  {
  }

  datatype Field = ConversationName | CustomGreeting | ConversationalContext

  /** The settings updaters: `{ ...conversationSettings, <field>: text }`. */
  function UpdatedSettings(s: Settings, f: Field, text: string): Settings {
    match f
    case ConversationName => s.(conversationName := text)
    case CustomGreeting => s.(customGreeting := text)
    case ConversationalContext => s.(conversationalContext := text)
  }

  /** Each updater sets its own field and copies the rest. */
  lemma UpdaterChangesOneField(s: Settings, f: Field, text: string)
    ensures var u := UpdatedSettings(s, f, text);
            u.personaId == s.personaId && u.properties == s.properties &&
            u.conversationName == (if f == ConversationName then text else s.conversationName) &&
            u.customGreeting == (if f == CustomGreeting then text else s.customGreeting) &&
            u.conversationalContext == (if f == ConversationalContext then text else s.conversationalContext)
    ensures UpdatedSettings(UpdatedSettings(s, f, text), f, text) == UpdatedSettings(s, f, text)
  {
  }

  // ------------------------------------------------------------ the panel

  /** The panel's local state over the shared context. */
  class ConversationPanel {
    const ctx: TavusState
    var isCreating: bool
    var error: string

    constructor (context: TavusState)
      ensures ctx == context && !isCreating && error == ""
    {
      ctx := context;
      isCreating := false;
      error := "";
    }

    /** `handleCreateConversation`: without an API key only the error is set
        and no request is made; otherwise the current settings are sent, the
        error is cleared, and on success the new conversation is stored, on
        failure the message (or the fallback) is shown. `isCreating` is false
        afterwards in both cases. */
    method CreateConversation(apiKey: string, created: Remote<Conversation>) returns (sent: Option<Settings>)
      modifies this, ctx
      ensures apiKey == "" ==>
                sent.None? && error == NoApiKey && isCreating == old(isCreating) && ctx.Call() == old(ctx.Call())
      ensures apiKey != "" ==> sent == Some(old(ctx.settings)) && !isCreating
      ensures apiKey != "" && created.Done? ==> ctx.Call() == Created(old(ctx.Call()), created.value) && error == ""
      ensures apiKey != "" && created.Failed? ==>
                ctx.Call() == old(ctx.Call()) && error == ErrorText(created.message, CreateFailed)
      ensures ctx.settings == old(ctx.settings) && ctx.callerName == old(ctx.callerName)
      ensures old(Consistent(ctx.Call())) ==> Consistent(ctx.Call())
    {
      if apiKey == "" {
        error := NoApiKey;
        return None;
      }
      isCreating := true;
      error := "";
      sent := Some(ctx.settings);
      match created {
        case Done(conv) => ctx.conversation := Some(conv);
        case Failed(message) => error := ErrorText(message, CreateFailed);
      }
      isCreating := false;
    }

    /** `handleEndConversation`: nothing happens without a conversation; the
        end request names the conversation's id; on success the call is
        ended, on failure only the error is set. */
    method EndConversation(ended: Remote<()>) returns (endedId: Option<string>)
      modifies this, ctx
      ensures old(ctx.conversation).None? ==> endedId.None? && ctx.Call() == old(ctx.Call()) && error == old(error)
      ensures old(ctx.conversation).Some? ==> endedId == Some(old(ctx.conversation).value.conversationId)
      ensures old(ctx.conversation).Some? && ended.Done? ==> ctx.Call() == Ended(old(ctx.Call())) && error == old(error)
      ensures old(ctx.conversation).Some? && ended.Failed? ==>
                ctx.Call() == old(ctx.Call()) && error == ErrorText(ended.message, EndFailed)
      ensures isCreating == old(isCreating)
      ensures ctx.settings == old(ctx.settings) && ctx.callerName == old(ctx.callerName)
      ensures old(Consistent(ctx.Call())) ==> Consistent(ctx.Call())
    {
      endedId := None;
      if ctx.conversation.None? {
        return;
      }
      endedId := Some(ctx.conversation.value.conversationId);
      match ended {
        case Done(_) =>
          ctx.conversation := None;
          ctx.isInCall := false;
          ctx.isControlsVisible := true;
        case Failed(message) =>
          error := ErrorText(message, EndFailed);
      }
    }

    /** `handleJoinConversation` */
    method JoinConversation()
      modifies ctx
      ensures ctx.Call() == Joined(old(ctx.Call()))
      ensures ctx.settings == old(ctx.settings) && ctx.callerName == old(ctx.callerName)
      ensures Consistent(old(ctx.Call())) ==> Consistent(ctx.Call())
    {
      if ctx.conversation.Some? && ctx.conversation.value.conversationUrl != "" {
        ctx.isInCall := true;
        ctx.isControlsVisible := false;
      }
    }

    /** `handleToggleVideo` */
    method ToggleVideo()
      modifies ctx
      ensures ctx.Call() == VideoToggled(old(ctx.Call()))
      ensures ctx.settings == old(ctx.settings) && ctx.callerName == old(ctx.callerName)
    {
      ctx.isVideoEnabled := !ctx.isVideoEnabled;
    }

    /** `handleToggleMute` */
    method ToggleMute()
      modifies ctx
      ensures ctx.Call() == MuteToggled(old(ctx.Call()))
      ensures ctx.settings == old(ctx.settings) && ctx.callerName == old(ctx.callerName)
    {
      ctx.isMuted := !ctx.isMuted;
    }

    /** The in-call button that shows or hides the control panel. */
    method ToggleControls()
      modifies ctx
      ensures ctx.Call() == ControlsToggled(old(ctx.Call()))
      ensures ctx.settings == old(ctx.settings) && ctx.callerName == old(ctx.callerName)
    {
      ctx.isControlsVisible := !ctx.isControlsVisible;
    }

    /** `updateConversationName`, `updateCustomGreeting` and
        `updateConversationContext`. */
    method UpdateSettings(f: Field, text: string)
      modifies ctx
      ensures ctx.settings == UpdatedSettings(old(ctx.settings), f, text)
      ensures ctx.Call() == old(ctx.Call()) && ctx.callerName == old(ctx.callerName)
    {
      match f {
        case ConversationName => ctx.settings := ctx.settings.(conversationName := text);
        case CustomGreeting => ctx.settings := ctx.settings.(customGreeting := text);
        case ConversationalContext => ctx.settings := ctx.settings.(conversationalContext := text);
      }
    }

    /** `handleLeaveCall`: the end request is made only when there is a
        conversation; whether it succeeds or fails, the call is ended and no
        error is shown. */
    method LeaveCall(ended: Remote<()>) returns (endedId: Option<string>)
      modifies ctx
      ensures endedId == (if old(ctx.conversation).Some? then Some(old(ctx.conversation).value.conversationId) else None)
      ensures ctx.Call() == Ended(old(ctx.Call()))
      ensures ctx.settings == old(ctx.settings) && ctx.callerName == old(ctx.callerName)
      ensures Consistent(ctx.Call())
    {
      endedId := None;
      if ctx.conversation.Some? {
        endedId := Some(ctx.conversation.value.conversationId);
        // the outcome of `ended` is only logged
      }
      ctx.isInCall := false;
      ctx.isControlsVisible := true;
      ctx.conversation := None;
    }
  }
}
