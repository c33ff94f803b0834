/** YAML documents as trees. Reading and writing their text is not part of this model. */
module Yaml {
  datatype Node =
    | Null
    | Scalar(text: string)
    | Sequence(elements: seq<Node>)
    | Mapping(entries: seq<Entry>)

  datatype Entry = Entry(key: string, value: Node)
}
