/** The storage router the listener hands its messages to, recorded as the messages it has accepted. */
module Routing {
  import opened StatsTypes

  class Router {
    var log: seq<Message>

    constructor ()
      ensures log == []
    {
      log := [];
    }

    method PutStorageMetaData(meta: StorageMetaData)
      modifies this
      ensures log == old(log) + [Message.PutStorageMetaData(meta)]
    {
      log := log + [Message.PutStorageMetaData(meta)];
    }

    method PutStaticInfo(init: InitReport)
      modifies this
      ensures log == old(log) + [Message.PutStaticInfo(init)]
    {
      log := log + [Message.PutStaticInfo(init)];
    }

    method PutUpdate(report: UpdateReport)
      modifies this
      ensures log == old(log) + [Message.PutUpdate(report)]
    {
      log := log + [Message.PutUpdate(report)];
    }
  }
}
