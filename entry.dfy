/**
 * A queued song. Its definition (syng/entry.py) is not part of this model:
 * only the fields the modelled sources read or write are kept. Everything
 * but `skip` is fixed at construction; `skip` is set by a source to tell the
 * caller that the song was skipped rather than played to its end.
 */
module Entries {
  import opened Wrappers

  class Entry {
    const ident: string
    const source: string
    const duration: int
    const title: Option<string>
    const artist: Option<string>
    const album: string
    const performer: string
    const incompleteData: bool
    var skip: bool

    constructor (ident: string, source: string, duration: int, title: Option<string>,
                 artist: Option<string>, album: string, performer: string, incompleteData: bool)
      ensures this.ident == ident && this.source == source && this.duration == duration
      ensures this.title == title && this.artist == artist && this.album == album
      ensures this.performer == performer && this.incompleteData == incompleteData
      ensures !skip
    {
      this.ident := ident;
      this.source := source;
      this.duration := duration;
      this.title := title;
      this.artist := artist;
      this.album := album;
      this.performer := performer;
      this.incompleteData := incompleteData;
      skip := false;
    }
  }
}
