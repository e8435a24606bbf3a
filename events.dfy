/**
 * The XML document as the NML reader sees it: a stream of start and end tag events.
 * The lexer (ElementTree's `iterparse`) and the writer (loxun's `XmlWriter`) are not modelled;
 * they are replaced by this event sequence.
 */
module Events {
  import opened Wrappers

  /** The attributes of one tag, by name (their order within the tag is not modelled). */
  type Attrs = map<string, string>

  datatype Event = Start(tag: string, attrs: Attrs) | End(tag: string)

  /** `elem.get(key)`: the attribute's text, or None when it is absent. */
  function Get(a: Attrs, key: string): (r: Option<string>)
    ensures r.Some? <==> key in a
    ensures r.Some? ==> r.value == a[key]
  {
    if key in a then Some(a[key]) else None
  }

  /** Adds `key` to an attribute map only when the optional value is present. */
  function Put(a: Attrs, key: string, v: Option<string>): (r: Attrs)
    ensures key in r <==> key in a || v.Some?
    ensures v.Some? ==> r[key] == v.value
    ensures forall k :: k != key ==> Get(r, k) == Get(a, k)
  {
    if v.Some? then a[key := v.value] else a
  }

  /** `xf.tag(name, attrs)`: an element without children. */
  function Leaf(tag: string, attrs: Attrs): seq<Event>
  {
    [Start(tag, attrs), End(tag)]
  }

  /** `xf.startTag(name)`, the body, then `xf.endTag()`. */
  function Container(tag: string, body: seq<Event>): seq<Event>
  {
    [Start(tag, map[])] + body + [End(tag)]
  }
}
