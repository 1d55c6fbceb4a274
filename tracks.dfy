/** A playlist track as the analyzer page sends it and the analysis function receives it. */
module Tracks {

  datatype Track = Track(name: string, artist: string)
}
