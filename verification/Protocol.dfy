/** Terms of MQTT Version 5.0 that both directions of traffic use. */
module Protocol {

  /** Quality of service: at most once, at least once, exactly once. */
  type Qos = q: nat | q <= 2
}
