/**
 * The XML element tree the loaders walk, taken as already parsed: an element
 * has a name, a text value, attributes and child elements in document order.
 * An element handle inside a parent is an index into its children; a null
 * handle is `None`.
 */
module XmlTrees {
  import opened Wrappers

  datatype XmlNode = XmlNode(name: string, value: string, attributes: map<string, string>, children: seq<XmlNode>)

  /** An element matches a name when the name is empty or equal to its own. */
  predicate Matches(e: XmlNode, name: string)
  {
    name == "" || e.name == name
  }

  /**
   * The first sibling at or after `from` that matches `name`: what
   * `GetChild(name)` (from 0) and `GetNext(name)` (from the next index) yield.
   */
  function FindFrom(children: seq<XmlNode>, name: string, from: nat): (r: Option<nat>)
    ensures r.Some? ==> from <= r.value < |children| && Matches(children[r.value], name)
    decreases |children| - from
  {
    if from >= |children| then None
    else if Matches(children[from], name) then Some(from)
    else FindFrom(children, name, from + 1)
  }

  /** `FindFrom` finds the first match: none is skipped, and it finds nothing only when there is none. */
  lemma {:induction false} FindFromIsFirst(children: seq<XmlNode>, name: string, from: nat)
    ensures var r := FindFrom(children, name, from);
            r.Some? ==> forall j :: from <= j < r.value ==> !Matches(children[j], name)
    ensures FindFrom(children, name, from).None? <==> forall j :: from <= j < |children| ==> !Matches(children[j], name)
    decreases |children| - from
  {
    if from < |children| && !Matches(children[from], name) {
      FindFromIsFirst(children, name, from + 1);
    }
  }

  /** The next sibling of any name, or null when the handle is null or last. */
  function NextSibling(children: seq<XmlNode>, handle: Option<nat>): (r: Option<nat>)
    ensures r.Some? <==> handle.Some? && handle.value + 1 < |children|
    ensures r.Some? ==> r.value == handle.value + 1
  {
    if handle.Some? && handle.value + 1 < |children| then Some(handle.value + 1) else None
  }
}
