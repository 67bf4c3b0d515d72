/**
 * Whether to resume a Discord session after its WebSocket closed
 * (`shouldResumeAfterClose` in `src/discord/gateway/GatewayCloseCode.ts`
 * and `src/discord/voice/VoiceGatewayCloseCode.ts`): a fixed set of codes
 * means "do not come back"; every other code, and a close without a code,
 * means resume.
 */
module CloseCodes {
  import opened Wrappers

  // Codes shared by both gateways.
  const NormalClosure := 1000
  const ServerClosure := 1001
  const HeartbeatNotAcknowledged := 3000
  const InvalidSession := 3001
  const Reconnecting := 3002
  const AuthenticationFailed := 4004

  // The main gateway.
  const UnknownError := 4000
  const SessionTimedOut := 4009
  const InvalidShard := 4010
  const ShardingRequired := 4011
  const InvalidAPIVersion := 4012
  const InvalidIntents := 4013
  const DisallowedIntents := 4014

  // The voice gateway.
  const SessionNoLongerValid := 4006
  const SessionTimeout := 4009
  const ServerNotFound := 4011
  const UnknownProtocol := 4012
  const Disconnected := 4014
  const VoiceServerCrashed := 4015
  const UnknownEncryptionMode := 4016

  /** The main gateway's `shouldResumeAfterClose`. */
  function GatewayShouldResume(code: Option<int>): (r: bool)
    ensures !r <==> code.Some? && code.value in {1000, 1001, 3002, 4004, 4010, 4011, 4012, 4013, 4014}
  {
    !(code == Some(NormalClosure) || code == Some(ServerClosure) || code == Some(Reconnecting)
      || code == Some(AuthenticationFailed) || code == Some(InvalidShard) || code == Some(ShardingRequired)
      || code == Some(InvalidAPIVersion) || code == Some(InvalidIntents) || code == Some(DisallowedIntents))
  }

  /** The voice gateway's `shouldResumeAfterClose`. */
  function VoiceShouldResume(code: Option<int>): (r: bool)
    ensures !r <==> code.Some? && code.value in {1000, 1001, 3002, 4004, 4006, 4011, 4012, 4014, 4016}
  {
    !(code == Some(NormalClosure) || code == Some(ServerClosure) || code == Some(Reconnecting)
      || code == Some(AuthenticationFailed) || code == Some(ServerNotFound) || code == Some(UnknownProtocol)
      || code == Some(Disconnected) || code == Some(UnknownEncryptionMode) || code == Some(SessionNoLongerValid))
  }

  /** A missed heartbeat, an unknown error, a timed-out session or a close without a code resume the main gateway. */
  lemma GatewayResumesAfterTransientClose()
    ensures GatewayShouldResume(Some(HeartbeatNotAcknowledged))
    ensures GatewayShouldResume(Some(UnknownError))
    ensures GatewayShouldResume(Some(SessionTimedOut))
    ensures GatewayShouldResume(None)
  {
  }

  /** A crashed voice server, a timed-out session or a close without a code resume the voice gateway. */
  lemma VoiceResumesAfterTransientClose()
    ensures VoiceShouldResume(Some(VoiceServerCrashed))
    ensures VoiceShouldResume(Some(SessionTimeout))
    ensures VoiceShouldResume(Some(HeartbeatNotAcknowledged))
    ensures VoiceShouldResume(None)
  {
  }

  /**
   * The two gateways agree except on four codes: 4006 and 4016 end only a
   * voice session, 4010 and 4013 only a main one.
   */
  lemma GatewaysDisagreeOnFourCodes(code: int)
    ensures GatewayShouldResume(Some(code)) != VoiceShouldResume(Some(code)) <==> code in {4006, 4010, 4013, 4016}
  {
  }
}
