/** The shared state of the AI interview call: the current conversation, the
    call flags, the settings used to create a conversation and the caller's
    name, with the helpers the provider hands out. */
module TavusContext {
  import opened Wrappers

  /** The parts of a created conversation the client reads. */
  datatype Conversation = Conversation(conversationId: string, conversationUrl: string)

  datatype Properties = Properties(
    maxCallDuration: nat,
    participantLeftTimeout: nat,
    participantAbsentTimeout: nat,
    enableRecording: bool,
    enableClosedCaptions: bool,
    applyGreenscreen: bool,
    language: string)

  /** The body sent when a conversation is created. */
  datatype Settings = Settings(
    personaId: string,
    conversationName: string,
    conversationalContext: string,
    customGreeting: string,
    properties: Properties)

  const DefaultSettings := Settings(
    "p5317866",
    "Job Interview Practice",
    "You are a friendly AI interview coach helping the user practice for job interviews. Provide constructive feedback and ask relevant interview questions.",
    "Hello! I'm here to help you practice for your upcoming job interviews. What position are you preparing for?",
    Properties(1800, 60, 300, false, true, false, "english"))

  /** The five call fields that `resetConversation` resets. */
  datatype CallState = CallState(
    conversation: Option<Conversation>,
    isInCall: bool,
    isVideoEnabled: bool,
    isMuted: bool,
    isControlsVisible: bool)

  /** No conversation, not in a call, video on, unmuted, controls shown. */
  const InitialCall := CallState(None, false, true, false, true)

  /** A call is only ever shown for an existing conversation. */
  predicate Consistent(c: CallState) {
    c.isInCall ==> c.conversation.Some?
  }

  /** `conversation?.conversation_url || null` */
  function UrlOf(c: Option<Conversation>): (r: Option<string>)
    ensures r.Some? <==> c.Some? && c.value.conversationUrl != ""
    ensures r.Some? ==> r.value == c.value.conversationUrl
  {
    if c.Some? && c.value.conversationUrl != "" then Some(c.value.conversationUrl) else None
  }

  /** `conversation?.conversation_id || null` */
  function IdOf(c: Option<Conversation>): (r: Option<string>)
    ensures r.Some? <==> c.Some? && c.value.conversationId != ""
    ensures r.Some? ==> r.value == c.value.conversationId
  {
    if c.Some? && c.value.conversationId != "" then Some(c.value.conversationId) else None
  }

  /** The provider's state. */
  class TavusState {
    var conversation: Option<Conversation>
    var isInCall: bool
    var isVideoEnabled: bool
    var isMuted: bool
    var isControlsVisible: bool
    var callerName: string
    var settings: Settings

    function Call(): CallState
      reads this
    {
      CallState(conversation, isInCall, isVideoEnabled, isMuted, isControlsVisible)
    }

    constructor ()
      ensures Call() == InitialCall && Consistent(Call())
      ensures callerName == ""
      ensures settings == DefaultSettings
    {
      conversation := None;
      isInCall := false;
      isVideoEnabled := true;
      isMuted := false;
      isControlsVisible := true;
      callerName := "";
      settings := DefaultSettings;
    }

    /** `getConversationUrl` */
    function ConversationUrl(): (r: Option<string>)
      reads this
      ensures r.Some? <==> conversation.Some? && conversation.value.conversationUrl != ""
      ensures r.Some? ==> r.value == conversation.value.conversationUrl
    {
      UrlOf(conversation)
    }

    /** `getConversationId` */
    function ConversationId(): (r: Option<string>)
      reads this
      ensures r.Some? <==> conversation.Some? && conversation.value.conversationId != ""
      ensures r.Some? ==> r.value == conversation.value.conversationId
    {
      IdOf(conversation)
    }

    /** `resetConversation`: the call fields go back to their initial values;
        the settings and the caller's name are kept. */
    method ResetConversation()
      modifies this
      ensures Call() == InitialCall && Consistent(Call())
      ensures settings == old(settings) && callerName == old(callerName)
    {
      conversation := None;
      isInCall := false;
      isVideoEnabled := true;
      isMuted := false;
      isControlsVisible := true;
    }
  }

  const OutsideProvider := "useTavus must be used within a TavusProvider"

  /** `useTavus`: the provider's state, or the error thrown outside one. */
  function UseTavus(context: Option<TavusState>): (r: Result<TavusState>)
    ensures r.Ok? <==> context.Some?
    ensures r.Ok? ==> r.value == context.value
    ensures r.Err? ==> r.message == OutsideProvider
  {
    if context.Some? then Ok(context.value) else Err(OutsideProvider)
  }

  /** The default settings: a 30-minute call, 60 s and 300 s participant
      timeouts, no recording, captions on, no green screen, English. */
  lemma DefaultSettingsValues()
    ensures DefaultSettings.properties.maxCallDuration == 30 * 60
    ensures DefaultSettings.properties.participantLeftTimeout == 60
    ensures DefaultSettings.properties.participantAbsentTimeout == 300
    ensures !DefaultSettings.properties.enableRecording && DefaultSettings.properties.enableClosedCaptions
    ensures !DefaultSettings.properties.applyGreenscreen && DefaultSettings.properties.language == "english"
  {
  }
}
