/** The two cooldown gates of the chat paths, on millisecond timestamps.
    `shouldInteract` (utils/messages/service.ts and the cron route) compares
    the time since the last interaction with a fixed 10 s; the per-stream
    gate of the message services uses the stream's own cooldown in seconds,
    with a missing last interaction read as the epoch and a missing cooldown
    as 6 s. */
module Cooldown {
  import opened Wrappers

  /** CHAT.INTERACTION_COOLDOWN, and the cron route's own copy of it. */
  const InteractionCooldown: int := 10 * 1000

  /** STREAM_SETTINGS.DEFAULT_COOLDOWN, in seconds. */
  const DefaultCooldownSeconds: int := 6

  /** `shouldInteract`: no recorded interaction allows one; otherwise at
      least the full cooldown must have elapsed. */
  function ShouldInteract(lastInteraction: Option<int>, now: int): (ok: bool)
    ensures lastInteraction.None? ==> ok
    ensures lastInteraction.Some? && now - lastInteraction.value < InteractionCooldown ==> !ok
  {
    lastInteraction.None? || now - lastInteraction.value >= InteractionCooldown
  }

  /** The boundary is inclusive: exactly 10 s after the last interaction the
      bot may interact, 1 ms earlier it may not. */
  lemma ShouldInteractBoundary(last: int)
    ensures ShouldInteract(Some(last), last + InteractionCooldown)
    ensures !ShouldInteract(Some(last), last + InteractionCooldown - 1)
  {
  }

  /** Once open, the gate stays open as time goes on. */
  lemma ShouldInteractMonotone(lastInteraction: Option<int>, now: int, later: int)
    requires now <= later && ShouldInteract(lastInteraction, now)
    ensures ShouldInteract(lastInteraction, later)
  {
  }

  /** The per-stream gate: `now - (last_interaction ?? epoch) >=
      (bot_cooldown_seconds ?? 6) * 1000`. */
  function GateOpen(lastInteraction: Option<int>, cooldownSeconds: Option<int>, now: int): (open: bool)
    ensures lastInteraction.None? && cooldownSeconds.None? ==> (open <==> now >= DefaultCooldownSeconds * 1000)
    ensures lastInteraction.Some? && cooldownSeconds.None? ==>
              (open <==> now - lastInteraction.value >= DefaultCooldownSeconds * 1000)
  {
    now - lastInteraction.GetOr(0) >= cooldownSeconds.GetOr(DefaultCooldownSeconds) * 1000
  }

  /** Recording an interaction at `stamp` closes a positive cooldown for the
      following `cooldownSeconds` seconds and reopens it exactly then. */
  lemma GateClosesAfterInteraction(stamp: int, cooldownSeconds: int, now: int)
    requires cooldownSeconds > 0
    ensures stamp <= now < stamp + cooldownSeconds * 1000 ==> !GateOpen(Some(stamp), Some(cooldownSeconds), now)
    ensures now >= stamp + cooldownSeconds * 1000 ==> GateOpen(Some(stamp), Some(cooldownSeconds), now)
  {
  }

  /** A stream whose cooldown is zero or negative is never gated once its last
      interaction is in the past. */
  lemma NonPositiveCooldownNeverGates(stamp: int, cooldownSeconds: int, now: int)
    requires cooldownSeconds <= 0 && stamp <= now
    ensures GateOpen(Some(stamp), Some(cooldownSeconds), now)
  {
  }
}
