/**
 * The problem records (triggers) that the table and the detail panel display.
 * They are snapshots handed over by the data source; nothing here changes them.
 * Only the fields that the views read are kept.
 */
module Triggers {
  import opened Wrappers

  /** A host group reference; only its display name is shown. */
  datatype Group = Group(name: string)

  /** An instrumented item attached to a problem, with its last reading. */
  datatype Item = Item(itemid: string, name: string, lastvalue: string)

  /** One acknowledgement of a problem by a user. */
  datatype Acknowledge = Acknowledge(acknowledgeid: string, time: string, user: string, message: string)

  /** An event tag, shown as an opaque (tag, value) chip. */
  datatype Tag = Tag(tag: string, value: string)

  /**
   * One problem record. `eventType` is the record's `type` field ("1" marks a
   * problem that generates multiple events). Optional fields are `Option`s;
   * `maintenance` is false when the record leaves it out.
   */
  datatype Trigger = Trigger(
    host: string,
    hostTechName: string,
    groups: Option<seq<Group>>,
    proxy: Option<string>,
    severity: string,
    color: string,
    value: string,
    description: string,
    tags: Option<seq<Tag>>,
    lastchange: string,
    age: string,
    comments: Option<string>,
    eventType: string,
    items: Option<seq<Item>>,
    acknowledges: Option<seq<Acknowledge>>,
    datasource: string,
    maintenance: bool)

  /** JavaScript truthiness of an optional string: present and not empty. */
  predicate Truthy(s: Option<string>) {
    s.Some? && s.value != ""
  }
}
