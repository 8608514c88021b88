/**
 * `AttributeLogger`: a singleton logging helper whose attributes go out as
 * the `extra` of every log call. The class attribute `_instance` is the
 * field of a `Registry`; the underlying `logging.Logger` is named by its
 * logger name, and emitting a record is the `Emit` value handed to it.
 */
module AttributeLoggers {
  import opened JsonData

  /** The level methods of the helper. */
  datatype Level = Info | Error | Debug | Warning | Fatal

  /** A call `logger.<level>(msg, **kwargs)` on the underlying logger. */
  datatype Emit = Emit(logger: string, level: Level, msg: string, kwargs: map<string, Json>)

  /** `attributes.copy()` updated with `kwargs`: every key of either, the new value winning. */
  function Merge(attributes: map<string, Json>, kwargs: map<string, Json>): (m: map<string, Json>)
    ensures m.Keys == attributes.Keys + kwargs.Keys
    ensures forall k :: k in kwargs ==> m[k] == kwargs[k]
    ensures forall k :: k in attributes && k !in kwargs ==> m[k] == attributes[k]
  {
    attributes + kwargs
  }

  /** Two successive merges are one merge with the second kwargs laid over the first. */
  lemma MergeTwice(attributes: map<string, Json>, first: map<string, Json>, second: map<string, Json>)
    ensures Merge(Merge(attributes, first), second) == Merge(attributes, Merge(first, second))
  {
  }

  /** Merging the same kwargs again changes nothing. */
  lemma MergeIdempotent(attributes: map<string, Json>, kwargs: map<string, Json>)
    ensures Merge(Merge(attributes, kwargs), kwargs) == Merge(attributes, kwargs)
  {
    MergeTwice(attributes, kwargs, kwargs);
    assert Merge(kwargs, kwargs) == kwargs;
  }

  /** The holder of the class attribute `_instance`, None until the first construction. */
  class Registry {
    var instance: AttributeLogger?

    constructor()
      ensures instance == null
    {
      instance := null;
    }
  }

  class AttributeLogger {
    var logger: string
    var attributes: map<string, Json>

    /** The bare object `__new__` allocates; `__init__` then sets both fields. */
    constructor Allocate()
      ensures attributes == map[]
    {
      logger := "";
      attributes := map[];
    }

    /**
     * A level method: `kwargs["extra"]` becomes the attributes and
     * `kwargs["stacklevel"]` becomes 2, whatever the caller passed under
     * those names; every other keyword argument goes through unchanged.
     */
    function Log(level: Level, msg: string, kwargs: map<string, Json>): (e: Emit)
      reads this
      ensures e.logger == logger && e.level == level && e.msg == msg
      ensures e.kwargs.Keys == kwargs.Keys + {"extra", "stacklevel"}
      ensures e.kwargs["extra"] == JObj(attributes) && e.kwargs["stacklevel"] == JInt(2)
      ensures forall k :: k in kwargs && k != "extra" && k != "stacklevel" ==> e.kwargs[k] == kwargs[k]
    {
      Emit(logger, level, msg, kwargs["extra" := JObj(attributes)]["stacklevel" := JInt(2)])
    }

    /**
     * `with_attributes`: construct an `AttributeLogger` on the same logger
     * with the merged attributes. The construction hands back the
     * singleton, so when this logger is that singleton it is returned
     * itself, now carrying the merged attributes.
     */
    method WithAttributes(registry: Registry, kwargs: map<string, Json>) returns (l: AttributeLogger)
      modifies registry, registry.instance
      ensures registry.instance == l
      ensures old(registry.instance) != null ==> l == old(registry.instance)
      ensures old(registry.instance) == null ==> fresh(l)
      ensures l.logger == old(logger) && l.attributes == Merge(old(attributes), kwargs)
      ensures old(registry.instance) == this ==> l == this
    {
      var newAttrs := Merge(attributes, kwargs);
      l := Construct(registry, logger, newAttrs);
    }
  }

  /**
   * `AttributeLogger(logger, **attr)`: `__new__` allocates the singleton on
   * the first call and hands back the same object on every later one;
   * `__init__` then replaces its logger and its attributes.
   */
  method Construct(registry: Registry, logger: string, attr: map<string, Json>) returns (l: AttributeLogger)
    modifies registry, registry.instance
    ensures registry.instance == l
    ensures old(registry.instance) != null ==> l == old(registry.instance)
    ensures old(registry.instance) == null ==> fresh(l)
    ensures l.logger == logger && l.attributes == attr
  {
    if registry.instance == null {
      registry.instance := new AttributeLogger.Allocate();
    }
    l := registry.instance;
    l.logger := logger;
    l.attributes := attr;
  }

  /**
   * Two constructions give the same object, and the second one's
   * attributes are what both references now see; a log call through the
   * first reference carries them.
   */
  method ConstructTwice(registry: Registry, logger1: string, attr1: map<string, Json>,
                        logger2: string, attr2: map<string, Json>)
    returns (a: AttributeLogger, b: AttributeLogger)
    modifies registry, registry.instance
    ensures a == b && registry.instance == a
    ensures a.logger == logger2 && a.attributes == attr2
    ensures a.Log(Info, "", map[]).kwargs["extra"] == JObj(attr2)
  {
    a := Construct(registry, logger1, attr1);
    b := Construct(registry, logger2, attr2);
  }
}
