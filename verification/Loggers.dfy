/**
 Loggers, their appenders, and the registry of loggers (src/_log/log.cpp:34-165 and 500-523). An appender is a
 value: it is changed only before it is added to a logger. Output is recorded, with the text that was formatted.
 */
module Loggers {
  import opened LogLevels
  import opened LogFormatters

  datatype Target = Stdout | File(path: string)

  datatype Appender = Appender(target: Target, level: LogLevel, pattern: string)

  const DEFAULT_PATTERN := "%d{%Y-%m-%d %H:%M:%S}" + ("%T%t%T%N%T%F%T[%p]%T[%c]" + "%T%f:%l%T%m%n")

  /** A text written to a target; the console gets one more line end. */
  datatype Delivery = Delivery(target: Target, text: string)

  class Sink {
    var deliveries: seq<Delivery>

    constructor ()
      ensures deliveries == []
    {
      deliveries := [];
    }
  }

  /** What an appender writes for an event that passes its level. */
  function Written(a: Appender, o: Occasion): Delivery {
    var text := Render(Compile(a.pattern), o);
    Delivery(a.target, if a.target.Stdout? then text + "\n" else text)
  }

  /** The deliveries of a list of appenders: of exactly those that the event passes, in order. */
  function DeliveredBy(appenders: seq<Appender>, o: Occasion): seq<Delivery> {
    if appenders == [] then []
    else
      var last := |appenders| - 1;
      var before := DeliveredBy(appenders[..last], o);
      if Passes(o.level, appenders[last].level) then before + [Written(appenders[last], o)] else before
  }

  /** `log` of an appender. */
  method Append(a: Appender, o: Occasion, sink: Sink)
    modifies sink
    ensures sink.deliveries
         == old(sink.deliveries) + if Passes(o.level, a.level) then [Written(a, o)] else []
  {
    PassesIsRank(o.level, a.level);
    if Rank(o.level) >= Rank(a.level) {
      var formatter := new LogFormatter(a.pattern);
      var text := formatter.Format(o);
      if a.target.Stdout? {
        text := text + "\n";
      }
      sink.deliveries := sink.deliveries + [Delivery(a.target, text)];
    }
  }

  class Logger {
    const name: string
    var level: LogLevel
    var appenders: seq<Appender>
    var root: Logger?

    constructor (name: string)
      ensures this.name == name && level == DEBUG && appenders == [] && root == null
    {
      this.name, level, appenders, root := name, DEBUG, [], null;
    }

    method SetLevel(level: LogLevel)
      modifies this`level
      ensures this.level == level
    {
      this.level := level;
    }

    method ClearAppenders()
      modifies this`appenders
      ensures appenders == []
    {
      appenders := [];
    }

    method AddAppender(a: Appender)
      modifies this`appenders
      ensures appenders == old(appenders) + [a]
    {
      appenders := appenders + [a];
    }

    method SetRoot(root: Logger)
      modifies this`root
      ensures this.root == root
    {
      this.root := root;
    }

    /** The occasion as this logger presents it: items print the name of the logger that has the appenders. */
    ghost function Presented(o: Occasion): Occasion { o.(loggerName := name) }

    /** `chain` lists this logger, its root, the root of that, and so on up to a logger without a root. */
    ghost predicate IsChain(chain: seq<Logger>)
      reads chain
    {
      && chain != [] && chain[0] == this
      && chain[|chain| - 1].root == null
      && forall k :: 0 <= k < |chain| - 1 ==> chain[k].root == chain[k + 1]
    }

    method Log(o: Occasion, sink: Sink, ghost chain: seq<Logger>)
      requires IsChain(chain)
      modifies sink
      ensures sink.deliveries == old(sink.deliveries) + Routed(chain, o)
      decreases |chain|
    {
      PassesIsRank(o.level, level);
      if Rank(o.level) >= Rank(level) {
        if appenders != [] {
          for k := 0 to |appenders|
            invariant sink.deliveries == old(sink.deliveries) + DeliveredBy(appenders[..k], Presented(o))
          {
            Append(appenders[k], o.(loggerName := name), sink);
            assert appenders[..k + 1][..k] == appenders[..k];
          }
          assert appenders[..|appenders|] == appenders;
        } else if root != null {
          root.Log(o, sink, chain[1..]);
        }
      }
    }
  }

  /**
   Where an event goes along a chain of roots: as far as each logger's level lets it, to the appenders of the first
   logger that has any.
   */
  ghost function Routed(chain: seq<Logger>, o: Occasion): seq<Delivery>
    reads chain
  {
    if chain == [] || !Passes(o.level, chain[0].level) then []
    else if chain[0].appenders != [] then DeliveredBy(chain[0].appenders, chain[0].Presented(o))
    else Routed(chain[1..], o)
  }

  /** The registry; the singleton is an object of this class. */
  class LoggerManager {
    const root: Logger
    var loggers: map<string, Logger>

    constructor ()
      ensures Valid() && loggers == map["root" := root] && fresh(root)
      ensures root.level == DEBUG && root.appenders == [Appender(Stdout, DEBUG, DEFAULT_PATTERN)]
    {
      var r := new Logger("root");
      r.AddAppender(Appender(Stdout, DEBUG, DEFAULT_PATTERN));
      root := r;
      loggers := map["root" := r];
    }

    /** Loggers are registered under their names; the root delegates to nobody and all others to the root. */
    ghost predicate Valid()
      reads this, loggers.Values
    {
      && "root" in loggers && loggers["root"] == root && root.root == null
      && forall n <- loggers :: loggers[n].name == n && (n != "root" ==> loggers[n].root == root)
    }

    method GetLogger(name: string) returns (logger: Logger)
      requires Valid()
      modifies this
      ensures Valid() && name in loggers && loggers[name] == logger
      ensures name in old(loggers) ==> loggers == old(loggers)
      ensures name !in old(loggers) ==>
        && fresh(logger) && loggers == old(loggers)[name := logger] && logger.level == DEBUG && logger.appenders == []
    {
      if name in loggers {
        return loggers[name];
      }
      logger := new Logger(name);
      logger.SetRoot(root);
      loggers := loggers[name := logger];
    }

    /** The logger's own appenders or, if it has none, the root's appenders, subject to the root's level. */
    ghost function Reached(name: string, o: Occasion): seq<Delivery>
      requires name in loggers
      reads this, loggers.Values, root
    {
      var l := loggers[name];
      if !Passes(o.level, l.level) then []
      else if l.appenders != [] then DeliveredBy(l.appenders, o.(loggerName := name))
      else if !Passes(o.level, root.level) then []
      else DeliveredBy(root.appenders, o.(loggerName := "root"))
    }

    /** The chain of a registered logger has at most one hop, to the root. */
    ghost function ChainOf(name: string): seq<Logger>
      requires name in loggers
      reads this
    {
      if name == "root" then [loggers[name]] else [loggers[name], root]
    }

    lemma RoutedOnce(name: string, o: Occasion)
      requires Valid() && name in loggers
      ensures loggers[name].IsChain(ChainOf(name)) && Routed(ChainOf(name), o) == Reached(name, o)
    {
      assert Routed([root], o) == if !Passes(o.level, root.level) || root.appenders == [] then []
                                  else DeliveredBy(root.appenders, root.Presented(o)) by {
        assert [root][1..] == [];
      }
      if name != "root" {
        assert ChainOf(name)[1..] == [root];
      }
    }

    /** In every state of the registry delegation ends, and the event goes where `Reached` says. */
    method LogTo(name: string, o: Occasion, sink: Sink)
      requires Valid() && name in loggers
      modifies sink
      ensures sink.deliveries == old(sink.deliveries) + Reached(name, o)
    {
      RoutedOnce(name, o);
      loggers[name].Log(o, sink, ChainOf(name));
    }
  }

  /** An appender takes part in the delivery of an event exactly if the event passes its level. */
  lemma {:induction false} DeliveredExactly(appenders: seq<Appender>, o: Occasion, d: Delivery)
    ensures d in DeliveredBy(appenders, o)
      <==> exists k :: 0 <= k < |appenders| && Passes(o.level, appenders[k].level)
                       && d == Written(appenders[k], o)
  {
    if appenders != [] {
      var last := |appenders| - 1;
      var front := appenders[..last];
      DeliveredExactly(front, o, d);
      assert forall k :: 0 <= k < last ==> front[k] == appenders[k];
    }
  }
}
