/** An abstract pandas frame and series: named columns over a shared index.
    Cell values are opaque; only the shape and the names matter here. */
module Frames {
  import opened Values

  datatype Index = Index(name: Label, labels: seq<Value>)

  datatype Column = Column(name: Label, cells: seq<Value>)

  datatype Frame = Frame(index: Index, columns: seq<Column>)
  {
    /** `df.shape[0]`. */
    function Rows(): nat { |index.labels| }
  }

  datatype Series = Series(name: Label, index: Index, cells: seq<Value>)
}
