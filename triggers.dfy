/** The scroll-trigger settings the three scroll handlers pass on: the
    trigger element, optional start and end positions, and pinning. The
    handlers fill in the same defaults for omitted or empty positions. */
module Triggers {
  import opened Wrappers

  /** Where the scrub runs: a trigger element and optional start, end and
      pinning (`ScrollTriggerConfig`). */
  datatype ScrubConfig = ScrubConfig(trigger: string, start: Option<string>, end: Option<string>, pin: Option<bool>)

  /** Where a fade runs (`FadeConfig`). */
  datatype FadeConfig = FadeConfig(trigger: string, start: Option<string>, end: Option<string>)

  /** A scroll trigger as it is created: bounds resolved, pinning decided. */
  datatype TriggerRegion = TriggerRegion(trigger: string, start: string, end: string, pin: bool, anticipatePin: nat)

  /** `value || fallback` on an optional string. */
  function OrDefault(value: Option<string>, fallback: string): (s: string)
    ensures value.Some? && value.value != "" ==> s == value.value
    ensures value.None? || value.value == "" ==> s == fallback
  {
    if value.Some? && value.value != "" then value.value else fallback
  }

  /** The scrub trigger: from "top bottom" to "bottom top" unless configured;
      pinned, with pin anticipation, only when `pin` is true. */
  function ScrubRegion(c: ScrubConfig): (r: TriggerRegion)
    ensures r.trigger == c.trigger
    ensures r.start == OrDefault(c.start, "top bottom") && r.end == OrDefault(c.end, "bottom top")
    ensures r.pin <==> c.pin == Some(true)
    ensures r.anticipatePin == (if r.pin then 1 else 0)
  {
    var pin := c.pin == Some(true);
    TriggerRegion(c.trigger, OrDefault(c.start, "top bottom"), OrDefault(c.end, "bottom top"), pin, if pin then 1 else 0)
  }

  /** A fade trigger: from "top center" to "bottom center" unless configured,
      never pinned. */
  function FadeRegion(c: FadeConfig): (r: TriggerRegion)
    ensures r.trigger == c.trigger && !r.pin && r.anticipatePin == 0
    ensures r.start == OrDefault(c.start, "top center") && r.end == OrDefault(c.end, "bottom center")
  {
    TriggerRegion(c.trigger, OrDefault(c.start, "top center"), OrDefault(c.end, "bottom center"), false, 0)
  }
}
