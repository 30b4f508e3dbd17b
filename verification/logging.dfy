/**
 * ProxyLogger: forwards each message to a standard logger and also keeps
 * it, with its level, until the caller flushes the stored messages.
 */
module Logging {

  datatype Level = Warning | Info | Error | Debug

  /** The level tag stored beside each message. */
  function LevelName(l: Level): (n: string)
    ensures n in {"WARNING", "INFO", "ERROR", "DEBUG"}
  {
    match l
    case Warning => "WARNING"
    case Info => "INFO"
    case Error => "ERROR"
    case Debug => "DEBUG"
  }

  /** Distinct levels carry distinct tags, so a stored tag tells its level. */
  lemma LevelNameInjective(a: Level, b: Level)
    requires LevelName(a) == LevelName(b)
    ensures a == b
  {
  }

  type Message = (Level, string)

  class ProxyLogger {
    /** The stored messages, oldest first. */
    var messages: seq<Message>

    /** `ProxyLogger(logger)`; the wrapped logger only receives copies and is not modelled. */
    constructor ()
      ensures messages == []
    {
      messages := [];
    }

    method GetMessages() returns (r: seq<Message>)
      ensures r == messages
    {
      r := messages;
    }

    /** Returns every stored message and forgets them. */
    method Flush() returns (r: seq<Message>)
      modifies this
      ensures r == old(messages) && messages == []
    {
      r := messages;
      messages := [];
    }

    method Log(level: Level, msg: string)
      modifies this
      ensures messages == old(messages) + [(level, msg)]
    {
      messages := messages + [(level, msg)];
    }

    method Warning(msg: string)
      modifies this
      ensures messages == old(messages) + [(Level.Warning, msg)]
    {
      Log(Level.Warning, msg);
    }

    method Info(msg: string)
      modifies this
      ensures messages == old(messages) + [(Level.Info, msg)]
    {
      Log(Level.Info, msg);
    }

    method Error(msg: string)
      modifies this
      ensures messages == old(messages) + [(Level.Error, msg)]
    {
      Log(Level.Error, msg);
    }

    method Debug(msg: string)
      modifies this
      ensures messages == old(messages) + [(Level.Debug, msg)]
    {
      Log(Level.Debug, msg);
    }

    /** Whether any stored message has the given level. */
    method HasLevel(level: Level) returns (b: bool)
      ensures b <==> exists i :: 0 <= i < |messages| && messages[i].0 == level
    {
      var i := 0;
      while i < |messages|
        invariant 0 <= i <= |messages|
        invariant forall j :: 0 <= j < i ==> messages[j].0 != level
      {
        if messages[i].0 == level {
          return true;
        }
        i := i + 1;
      }
      b := false;
    }

    method HasErrors() returns (b: bool)
      ensures b <==> exists i :: 0 <= i < |messages| && messages[i].0 == Level.Error
    {
      b := HasLevel(Level.Error);
    }

    method HasWarnings() returns (b: bool)
      ensures b <==> exists i :: 0 <= i < |messages| && messages[i].0 == Level.Warning
    {
      b := HasLevel(Level.Warning);
    }
  }

  /** A fresh logger has no errors; one error makes `has_errors` true until the next flush. */
  method ErrorUntilFlush(msg: string) returns (before: bool, after: bool, flushed: seq<Message>, cleared: bool)
    ensures !before && after && !cleared
    ensures flushed == [(Level.Error, msg)]
  {
    var log := new ProxyLogger();
    before := log.HasErrors();
    log.Error(msg);
    after := log.HasErrors();
    assert log.messages[0].0 == Level.Error;
    flushed := log.Flush();
    cleared := log.HasErrors();
  }
}
