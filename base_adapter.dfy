/**
  The tensor descriptor shared by every launcher and model wrapper, and the pair
  of name-keyed descriptor tables a loaded network exposes.
*/
module BaseAdapter {
  import opened Dicts

  /**
    One tensor: its aliases, its dimensions (a dynamic dimension is a negative
    sentinel), the axis layout ("" when unknown), the backend precision, the
    numeric type the caller exchanges, and backend-specific extras.
  */
  datatype Metadata = Metadata(
    names: set<string>,
    shape: seq<int>,
    layout: string,
    precision: string,
    tensorType: string,
    meta: map<string, string>)

  /** The dataclass with every field at its default. */
  function DefaultMetadata(): (m: Metadata)
    ensures m.names == {} && m.shape == [] && m.layout == ""
    ensures m.precision == "" && m.tensorType == "" && m.meta == map[]
  {
    Metadata({}, [], "", "", "", map[])
  }

  /**
    `Metadata(name, shape=shape, layout=layout)`: the given name, shape and
    layout, every other field at its default.
  */
  function NamedMetadata(name: string, shape: seq<int>, layout: string): (m: Metadata)
    ensures m.names == {name} && m.shape == shape && m.layout == layout
    ensures m.precision == "" && m.tensorType == "" && m.meta == map[]
  {
    DefaultMetadata().(names := {name}, shape := shape, layout := layout)
  }

  /** The input and output descriptor tables of one loaded network. */
  datatype NetworkInfo = NetworkInfo(inputsInfo: Dict<Metadata>, outputsInfo: Dict<Metadata>)
}
