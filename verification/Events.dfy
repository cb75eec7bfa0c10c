/**
The events that travel through the server.  Room, time stamps and the hash that becomes the id are left out;
the id is kept for events that come from elsewhere.
*/
module Events {

  type Tags = map<string, string>

  const CHAT := "chat"
  const COMMAND := "command"
  const TRANSLATION := "translation"
  const INTERNAL := "_internal"

  datatype User = User(id: string, nick: string)

  datatype Source = Source(user: User, pluginName: string)

  datatype Event = Event(
    id: string,
    name: string,
    source: Source,
    targetFilter: string,
    language: string,
    tags: Tags
  )

  function NewEvent(source: Source, targetFilter: string, language: string, name: string, tags: Tags): Event {
    Event("", name, source, targetFilter, language, tags)
  }

}
