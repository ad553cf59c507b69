/** Small vocabulary shared by every other module. */
module Base {

  /** A Go pointer field that may be nil, or the outcome of a call that may fail. */
  datatype Option<+T> = None | Some(value: T)

  /** The text behind an optional string, with nil read as the empty string. */
  function Text(o: Option<string>): string {
    if o.Some? then o.value else ""
  }

  /** Assigning a tag a machine already carries leaves its tag list alone. */
  function AddTag(tags: seq<string>, tag: string): (r: seq<string>)
    ensures forall t :: t in r <==> t in tags || t == tag
  {
    if tag in tags then tags else tags + [tag]
  }

  /** Unassigning a tag drops every occurrence of it and keeps the order of the rest. */
  function RemoveTag(tags: seq<string>, tag: string): (r: seq<string>)
    ensures forall t :: t in r <==> t in tags && t != tag
  {
    if tags == [] then []
    else (if tags[0] == tag then [] else [tags[0]]) + RemoveTag(tags[1..], tag)
  }
}
