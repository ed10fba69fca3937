/** The graph-definition tokens the templates concatenate. The rrd:: helpers of
    PNP4Nagios (def, line1, gprint, hrule, comment, cut) are library code whose
    bodies are not part of this model, so each call is kept as an uninterpreted
    token that records its arguments; a definition string built with `.=` is the
    sequence of its tokens. */
module Rrd {

  /** rrd::cut(text, width): how the library shortens the text is not modelled */
  datatype Legend = Cut(text: string, width: nat)

  datatype Token =
    | Def(vname: string, rrdFile: string, ds: string, cf: string)   // rrd::def
    | Line1(vname: string, color: string, legend: Legend)           // rrd::line1
    | Gprint(vname: string, cfs: seq<string>, format: string)       // rrd::gprint
    | Hrule(value: int, color: string, caption: string)             // rrd::hrule
    | Comment(note: string)                                         // rrd::comment
    | Text(raw: string)                                             // text the template writes itself
}
