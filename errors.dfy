/**
 * The messages the speech hook puts in its `error` field: one fixed message
 * per known engine error code, a generic message quoting any other code,
 * and the messages of a failed start and of an unsupported browser.
 */
module SpeechErrors {
  import opened Maybe

  const NoSpeechMessage := "No speech was detected. Please try again."
  // One message written as two literals: the verifier reasons about the characters of short literals only.
  const NotAllowedMessage := "Microphone access was denied. " + "Please allow microphone access in your browser settings."
  const AbortedMessage := "Speech recognition was aborted."
  const NetworkMessage := "Network error during speech recognition."
  /** Prefix of the message for an engine error code without a message of its own. */
  const EngineErrorPrefix := "Speech recognition error: "
  const AlreadyActiveMessage := "Speech recognition is already active. Please stop before starting again."
  /** Prefix of the message for an exception from `start()` other than an invalid state. */
  const StartErrorPrefix := "Error starting speech recognition: "
  const UnsupportedMessage := "Your browser does not support the Web Speech API. Please try Chrome or Edge."

  /** The engine error codes that have a message of their own. */
  const KnownCodes: set<string> := {"no-speech", "not-allowed", "aborted", "network"}

  /** The message of the `onerror` handler for an engine error code. */
  function ErrorMessage(code: string): string
  {
    if code == "no-speech" then NoSpeechMessage
    else if code == "not-allowed" then NotAllowedMessage
    else if code == "aborted" then AbortedMessage
    else if code == "network" then NetworkMessage
    else EngineErrorPrefix + code
  }

  /** Reads the engine error code back from an `onerror` message; `None`
      for text that is no such message. */
  function ErrorCode(message: string): Option<string>
  {
    if message == NoSpeechMessage then Some("no-speech")
    else if message == NotAllowedMessage then Some("not-allowed")
    else if message == AbortedMessage then Some("aborted")
    else if message == NetworkMessage then Some("network")
    else if EngineErrorPrefix <= message then Some(message[|EngineErrorPrefix|..])
    else None
  }

  /** No fixed message starts like the generic one, so a generic message is
      never mistaken for a fixed one. */
  lemma FixedMessagesAreNotGeneric()
    ensures !(EngineErrorPrefix <= NoSpeechMessage)
    ensures !(EngineErrorPrefix <= NotAllowedMessage)
    ensures !(EngineErrorPrefix <= AbortedMessage)
    ensures !(EngineErrorPrefix <= NetworkMessage)
  {
    assert EngineErrorPrefix[0] != NoSpeechMessage[0];
    assert EngineErrorPrefix[0] != NotAllowedMessage[0];
    assert EngineErrorPrefix[19] != AbortedMessage[19];
    assert EngineErrorPrefix[0] != NetworkMessage[0];
  }

  /** The error message of a code determines the code: reading it back gives the code. */
  lemma ErrorMessageRoundTrip(code: string)
    ensures ErrorCode(ErrorMessage(code)) == Some(code)
  {
    FixedMessagesAreNotGeneric();
    if code !in KnownCodes {
      var m := EngineErrorPrefix + code;
      assert EngineErrorPrefix <= m;
      assert m[|EngineErrorPrefix|..] == code;
    }
  }

  /** Distinct error codes give distinct messages. */
  lemma ErrorMessageInjective(a: string, b: string)
    requires ErrorMessage(a) == ErrorMessage(b)
    ensures a == b
  {
    ErrorMessageRoundTrip(a);
    ErrorMessageRoundTrip(b);
  }

  /** A code gets the generic message, quoting it, exactly when it is not one
      of the four known codes; the known codes get their fixed messages. */
  lemma ErrorMessageClassifies(code: string)
    ensures code !in KnownCodes <==> EngineErrorPrefix <= ErrorMessage(code)
    ensures code !in KnownCodes ==> ErrorMessage(code) == EngineErrorPrefix + code
    ensures code == "no-speech" ==> ErrorMessage(code) == NoSpeechMessage
    ensures code == "not-allowed" ==> ErrorMessage(code) == NotAllowedMessage
    ensures code == "aborted" ==> ErrorMessage(code) == AbortedMessage
    ensures code == "network" ==> ErrorMessage(code) == NetworkMessage
  {
    FixedMessagesAreNotGeneric();
  }
}
