/** The values that cross the wire between the daemon and a translation provider:
    identifiers, PCM formats, provider events, and the session contract both ends
    agreed on.  Identifiers are compared for equality only, and arrive here already
    parsed. */
module Wire {

  datatype Option<+T> = None | Some(value: T)

  datatype Uuid = Uuid(bits: nat)

  newtype Byte = b: int | 0 <= b < 256

  type Pcm = seq<Byte>

  const NS_PER_MS: nat := 1_000_000
  const MAX_ACTIVE_UTTERANCES: nat := 64
  const MAX_TERMINAL_UTTERANCES: nat := 4096

  datatype Direction = Microphone | Speaker
  datatype Language = Ru | En
  datatype ProviderId = Local | OpenAi
  datatype Mode = QualityFirst | Balanced | StreamingFirst
  datatype Outcome = Completed | Cancelled | Dropped | Unspecified

  datatype ErrorCode =
    | ProviderUnavailable
    | ModelNotLoaded
    | UnsupportedLanguagePair
    | QueueOverflow
    | OperationCancelled
    | NoSpeech
    | CloudNotEnabled
    | ProviderAuthFailed
    | UnspecifiedError

  datatype PcmFormat = PcmFormat(sampleRateHz: nat, channels: nat, s16le: bool, frameDurationMs: nat)
  {
    /** The formats the provider contract can express at all. */
    predicate Supported() {
      && sampleRateHz in {16_000, 24_000, 48_000}
      && channels in {1, 2}
      && s16le
      && frameDurationMs in {20, 40, 60, 80, 100}
    }

    function FrameBytes(): nat {
      sampleRateHz * channels * 2 * frameDurationMs / 1000
    }
  }

  datatype Contract = Contract(
    session: Uuid,
    stream: Uuid,
    provider: ProviderId,
    direction: Direction,
    source: Language,
    target: Language,
    mode: Mode,
    inputFormat: PcmFormat,
    outputFormat: PcmFormat,
    debugText: bool)

  datatype Header = Header(session: Uuid, direction: Direction, sequence: nat)

  datatype Capabilities = Capabilities(audioOutput: bool, cancellation: bool, cloudEgress: bool)

  datatype Event =
    | SessionOpened(header: Header, inputFormat: PcmFormat, outputFormat: PcmFormat, capabilities: Capabilities)
    | AudioDelta(header: Header, stream: Uuid, utterance: Uuid, audioSequence: nat, providerNs: nat,
                 format: PcmFormat, pcm: Pcm)
    | TranscriptDelta(header: Header, stream: Uuid, utterance: Uuid, isFinal: bool)
    | TranslationDelta(header: Header, stream: Uuid, utterance: Uuid, isFinal: bool)
    | UtteranceFinal(header: Header, stream: Uuid, utterance: Uuid, finalAudio: Option<nat>, outcome: Outcome)
    | SessionClosed(header: Header)
    | Health(header: Header, provider: ProviderId, hasQueues: bool)
    | Latency(header: Header, stream: Uuid, about: Option<Uuid>, asrFirstMs: Option<nat>, asrFinalMs: Option<nat>,
              mtFirstMs: Option<nat>, ttsFirstMs: Option<nat>, totalMs: Option<nat>)
    | Error(header: Header, errorStream: Option<Uuid>, about: Option<Uuid>, code: ErrorCode)
  {
    /** The utterance an event speaks about, if it speaks about one. */
    function Subject(): Option<Uuid> {
      match this
      case AudioDelta(_, _, u, _, _, _, _) => Some(u)
      case TranscriptDelta(_, _, u, _) => Some(u)
      case TranslationDelta(_, _, u, _) => Some(u)
      case UtteranceFinal(_, _, u, _, _) => Some(u)
      case Latency(_, _, u, _, _, _, _, _) => u
      case Error(_, _, u, _) => u
      case _ => None
    }
  }

  /** The age beyond which captured speech is no longer worth playing. */
  function MaxAgeNs(mode: Mode): nat {
    match mode
    case QualityFirst => 3000 * NS_PER_MS
    case Balanced => 2000 * NS_PER_MS
    case StreamingFirst => 1000 * NS_PER_MS
  }

  function Lookup<K, V>(m: map<K, V>, k: K): Option<V> {
    if k in m then Some(m[k]) else None
  }

  /** The last of the numbers 0, 1, ..., count - 1. */
  function LastOf(count: nat): Option<nat> {
    if count == 0 then None else Some(count - 1)
  }
}
