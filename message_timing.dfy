/** `calculateMessageDelay` of utils/message-timing.ts over the reals: a
    typing time proportional to the message length, a thinking time growing
    with it, a random variation of `±randomVariation/2` of the total, and a
    clamp to `[minDelay, maxDelay]`. The `Math.random()` draw is the
    parameter `r`. */
module MessageTiming {

  datatype DelayConfig = DelayConfig(baseThinkingTime: real, typeSpeed: real, randomVariation: real,
                                     minDelay: real, maxDelay: real)

  /** The default configuration of `calculateMessageDelay`. */
  const DefaultConfig: DelayConfig := DelayConfig(500.0, 7.0, 0.2, 300.0, 3000.0)

  /** `typingTime + thinkingTime` for a message of `length` characters. */
  function BaseDelay(length: nat, config: DelayConfig): real
    requires config.typeSpeed != 0.0
  {
    (length as real / config.typeSpeed) * 1000.0 + config.baseThinkingTime * (1.0 + length as real / 100.0)
  }

  /** The total after the random variation: `total + r*v - v/2` with
      `v = total * randomVariation`. */
  function Jittered(total: real, randomVariation: real, r: real): real {
    var variation := total * randomVariation;
    total + r * variation - variation / 2.0
  }

  /** `Math.min(Math.max(total, minDelay), maxDelay)`. */
  function Clamp(total: real, minDelay: real, maxDelay: real): (d: real)
    ensures d <= maxDelay
    ensures minDelay <= maxDelay ==> minDelay <= d
    ensures minDelay <= total <= maxDelay ==> d == total
    ensures minDelay > maxDelay ==> d == maxDelay
  {
    var lower := if total > minDelay then total else minDelay;
    if lower < maxDelay then lower else maxDelay
  }

  function CalculateMessageDelay(message: string, config: DelayConfig, r: real): (d: real)
    requires config.typeSpeed != 0.0
    ensures d <= config.maxDelay
    ensures config.minDelay <= config.maxDelay ==> config.minDelay <= d
  {
    Clamp(Jittered(BaseDelay(|message|, config), config.randomVariation, r), config.minDelay, config.maxDelay)
  }

  /** For `r` in `[0, 1)` and a positive variation `v`, the jittered total
      lies in `[total - v/2, total + v/2)`. */
  lemma JitterRange(total: real, randomVariation: real, r: real)
    requires 0.0 <= r < 1.0 && total * randomVariation > 0.0
    ensures total - total * randomVariation / 2.0 <= Jittered(total, randomVariation, r)
    ensures Jittered(total, randomVariation, r) < total + total * randomVariation / 2.0
  {
    var v := total * randomVariation;
    assert 0.0 <= r * v;
    assert r * v < v by {
      assert v - r * v == (1.0 - r) * v;
      assert (1.0 - r) * v > 0.0;
    }
    assert Jittered(total, randomVariation, r) == total + r * v - v / 2.0;
  }

  /** A longer message never has a shorter base delay, for a positive typing
      speed and a non-negative thinking time. */
  lemma BaseDelayMonotone(n: nat, m: nat, config: DelayConfig)
    requires n <= m && config.typeSpeed > 0.0 && config.baseThinkingTime >= 0.0
    ensures BaseDelay(n, config) <= BaseDelay(m, config)
  {
    var nr := n as real;
    var mr := m as real;
    assert nr / config.typeSpeed <= mr / config.typeSpeed by {
      assert mr / config.typeSpeed - nr / config.typeSpeed == (mr - nr) / config.typeSpeed;
    }
    assert config.baseThinkingTime * (1.0 + nr / 100.0) <= config.baseThinkingTime * (1.0 + mr / 100.0) by {
      assert config.baseThinkingTime * (1.0 + mr / 100.0) - config.baseThinkingTime * (1.0 + nr / 100.0)
             == config.baseThinkingTime * ((mr - nr) / 100.0);
    }
  }

  /** With the defaults, an empty message waits between 450 ms (inclusive)
      and 550 ms (exclusive). */
  lemma EmptyMessageDefault(r: real)
    requires 0.0 <= r < 1.0
    ensures 450.0 <= CalculateMessageDelay("", DefaultConfig, r) < 550.0
  {
    assert BaseDelay(0, DefaultConfig) == 500.0;
    JitterRange(500.0, 0.2, r);
  }
}
