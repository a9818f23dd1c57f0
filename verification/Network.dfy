/** What is on the wire: a network that may lose, repeat and reorder keeps a set. */
module Network {
  import opened Tcp

  function Carried(sent: seq<Segment>): set<Segment> { set g | g in sent }
}
