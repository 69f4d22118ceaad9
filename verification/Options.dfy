/** The way of the base options: from the chart's value through the controller's command line into the
    ConfigMap that the operator reads. */
module Options {
  import opened Wrappers
  import opened Cluster
  import opened BlockScalar
  import opened Rendering

  datatype Configuration = Configuration(baseDikiConfig: Option<string>)

  /** ValidateConfiguration finds no error. */
  predicate Accepted(c: Configuration) {
    c.baseDikiConfig.Some? ==> c.baseDikiConfig.value != ""
  }

  class ConfigurationCell {
    var value: Configuration

    constructor ()
    {
      value := Configuration(None);
    }
  }

  class DikiOptions {
    var configLocation: string
    var config: Option<Configuration>

    constructor (configLocation: string)
      ensures this.configLocation == configLocation && config == None
    {
      this.configLocation := configLocation;
      config := None;
    }

    /** `read` is the file system and `decode` the codec; both may fail. Only accepted configurations are
        stored, and an error leaves what was stored before. */
    method Complete(read: string -> Option<string>, decode: string -> Option<Configuration>) returns (ok: bool)
      modifies this`config
      ensures configLocation == "" ==> ok && config == Some(Configuration(None))
      ensures configLocation != "" ==>
                (ok <==> read(configLocation).Some? && decode(read(configLocation).value).Some? &&
                         Accepted(decode(read(configLocation).value).value)) &&
                (ok ==> config == decode(read(configLocation).value))
      ensures !ok ==> config == old(config)
      ensures ok ==> config.Some? && Accepted(config.value)
    {
      if |configLocation| == 0 {
        config := Some(Configuration(None));
        return true;
      }
      var data := read(configLocation);
      if data.None? {
        return false;
      }
      var cfg := decode(data.value);
      if cfg.None? {
        return false;
      }
      if cfg.value.baseDikiConfig.Some? && |cfg.value.baseDikiConfig.value| == 0 {
        return false;
      }
      config := cfg;
      ok := true;
    }

    /** Completed and Apply: the whole stored configuration overwrites the target. */
    method Apply(target: ConfigurationCell)
      requires config.Some?
      modifies target
      ensures Some(target.value) == config
    {
      target.value := config.value;
    }
  }

  /** The component's values as newComponent takes them from the configuration. */
  function WithOptions(v: Values, c: Configuration): Values {
    v.(baseOptionsData :=
         if c.baseDikiConfig.Some? && |c.baseDikiConfig.value| != 0 then c.baseDikiConfig.value else "")
  }

  predicate IsBaseOptions(o: Object, namespace: string) {
    o.key == Key(ConfigMap, namespace, BASE_OPTIONS)
  }

  /** The seed objects carry `text` to the operator: with a text there is a base options ConfigMap, it has
      just this text as its data, and the operator's configuration names it and its key; without one there
      is neither. */
  predicate Delivered(os: seq<Object>, namespace: string, text: Option<string>) {
    && (text.Some? <==> exists o :: o in os && IsBaseOptions(o, namespace))
    && (forall o :: o in os && IsBaseOptions(o, namespace) ==>
          text.Some? && o.spec == Data(map[CONFIG_FILE := text.value]))
    && (exists o :: o in os && o.spec.Configured?)
    && (forall o :: o in os && o.spec.Configured? ==>
          o.spec.config.baseOptions == if text.Some? then Some((BASE_OPTIONS, CONFIG_FILE)) else None)
  }

  /** An accepted configuration arrives as it is. */
  lemma OptionsDelivered(v: Values, c: Configuration)
    requires Accepted(c)
    ensures Delivered(SeedObjects(WithOptions(v, c)), v.namespace, c.baseDikiConfig)
  {
    var w := WithOptions(v, c);
    var os := SeedObjects(w);
    OnlyBaseOptions(w);
    OneConfiguration(w);
    if c.baseDikiConfig.Some? {
      assert os[9] == BaseOptionsConfigMap(w);
      assert IsBaseOptions(os[9], v.namespace);
    }
  }

  lemma OneConfiguration(v: Values)
    ensures SeedObjects(v)[2] in SeedObjects(v) && SeedObjects(v)[2].spec.Configured?
    ensures forall o :: o in SeedObjects(v) && o.spec.Configured? ==> o.spec.config == ConfigOf(v)
  {
    var os := SeedObjects(v);
    forall o | o in os && o.spec.Configured? ensures o.spec.config == ConfigOf(v) {
      var i :| 0 <= i < |os| && os[i] == o;
    }
  }

  lemma OnlyBaseOptions(v: Values)
    ensures forall o :: o in SeedObjects(v) && IsBaseOptions(o, v.namespace) ==>
              v.baseOptionsData != "" && o == BaseOptionsConfigMap(v)
  {
    SeedKeysDistinct(v);
    assert |NAME| == 13 && |BASE_OPTIONS| == 17;
  }

  /** The file and codec give an accepted configuration, or none is asked for. */
  predicate Readable(location: string, read: string -> Option<string>, decode: string -> Option<Configuration>) {
    location == "" ||
    (read(location).Some? && decode(read(location).value).Some? && Accepted(decode(read(location).value).value))
  }

  /** The text that it configures. */
  function ConfiguredText(location: string, read: string -> Option<string>, decode: string -> Option<Configuration>)
    : Option<string>
    requires Readable(location, read, decode)
  {
    if location == "" then None else decode(read(location).value).value.baseDikiConfig
  }

  /** From the start of the controller to the rendered objects: the configuration is read and checked, and
      overwrites the controller's; a component made from it renders the seed objects. All that is accepted
      is delivered; what is not is an error, which changes nothing and renders nothing. */
  method Deliver(options: DikiOptions, target: ConfigurationCell,
                 read: string -> Option<string>, decode: string -> Option<Configuration>, v: Values)
    returns (ok: bool, resources: seq<Object>)
    modifies options`config, target
    ensures ok <==> Readable(options.configLocation, read, decode)
    ensures ok ==> Delivered(resources, v.namespace, ConfiguredText(options.configLocation, read, decode))
    ensures !ok ==> resources == [] && options.config == old(options.config) && target.value == old(target.value)
  {
    resources := [];
    ok := options.Complete(read, decode);
    if ok {
      options.Apply(target);
      OptionsDelivered(v, target.value);
      resources := SeedResources(WithOptions(v, target.value));
    }
  }

  // ---- from the chart's value ----

  /** The data entry of the chart's ConfigMap for any value: the template leaves an empty one out. */
  function Chart(v: string): string {
    if v == "" then OUTER + NIndent(4, API_VERSION + "\n" + KIND) + "\n" else RenderChart(v)
  }

  /** The codec, on the texts that the chart prints. */
  function DecodeConfiguration(text: string): Option<Configuration> {
    if HasType(Split(text)) && |Split(text)| == 2 then Some(Configuration(None))
    else match DecodeInner(text)
      case None => None
      case Some(v) => Some(Configuration(Some(v)))
  }

  lemma DecodeEmptyChart()
    ensures DecodeOuter(Chart("")) == Some(API_VERSION + "\n" + KIND)
    ensures DecodeConfiguration(API_VERSION + "\n" + KIND) == Some(Configuration(None))
  {
    EmptyLines();
    HeaderLines();
    OuterBlock(API_VERSION + "\n" + KIND);
    ReadType(Split(API_VERSION + "\n" + KIND));
  }

  lemma EmptyLines()
    ensures Split(API_VERSION + "\n" + KIND) == [API_VERSION, KIND] && KIND != ""
  {
    HeaderLines();
    SplitLine(API_VERSION, KIND);
    SplitOnly(KIND);
    assert |KIND| == 19;
  }

  lemma {:induction false} ClippedText(v: string)
    requires v != ""
    ensures Clipped(v) != ""
    decreases |v|
  {
    if |v| >= 2 {
      ClippedText(v[..|v| - 1]);
    }
  }

  /** What the controller reads from the file that the chart mounts: nothing configured without a value, the
      clipped value if it is flush left, and the value itself just when it is flush left and clipped. */
  lemma ChartFile(value: string)
    ensures DecodeOuter(Chart(value)).Some?
    ensures value == "" ==> DecodeConfiguration(DecodeOuter(Chart(value)).value) == Some(Configuration(None))
    ensures Flush(value) ==>
              DecodeConfiguration(DecodeOuter(Chart(value)).value) == Some(Configuration(Some(Clipped(value))))
    ensures value != "" ==>
              (DecodeConfiguration(DecodeOuter(Chart(value)).value) == Some(Configuration(Some(value))) <==>
                 Flush(value) && Clipped(value) == value)
  {
    if value == "" {
      DecodeEmptyChart();
    } else {
      OuterRoundTrip(value);
      InnerBlock(value);
      ChartRoundTrip(value);
    }
  }

  /** What an operator of the landscape writes under baseDikiConfig is what diki reads: a value that is
      flush left reaches the ConfigMap with all but one of its final line feeds removed. */
  lemma ChartToConfigMap(value: string, v: Values)
    requires Flush(value)
    ensures DecodeOuter(Chart(value)).Some?
    ensures var c := DecodeConfiguration(DecodeOuter(Chart(value)).value);
            c.Some? && Accepted(c.value) &&
            Delivered(SeedObjects(WithOptions(v, c.value)), v.namespace, Some(Clipped(value)))
  {
    ChartFile(value);
    ClippedText(value);
    OptionsDelivered(v, Configuration(Some(Clipped(value))));
  }

  /** Without a value there are no base options. */
  lemma EmptyChart(v: Values)
    ensures DecodeOuter(Chart("")).Some?
    ensures DecodeConfiguration(DecodeOuter(Chart("")).value) == Some(Configuration(None))
    ensures Delivered(SeedObjects(WithOptions(v, Configuration(None))), v.namespace, None)
  {
    DecodeEmptyChart();
    OptionsDelivered(v, Configuration(None));
  }

  lemma DeliveredOnce(os: seq<Object>, namespace: string, text: Option<string>, other: Option<string>)
    requires Delivered(os, namespace, text) && Delivered(os, namespace, other)
    ensures text == other
  {
    if text.Some? {
      var o :| o in os && IsBaseOptions(o, namespace);
      assert o.spec.data[CONFIG_FILE] == text.value;
    }
  }

  /** Where the chart mounts its ConfigMap, and the file that it passes to the controller. */
  const CONFIG_MOUNT := "/etc/gardener-extension-diki/config"
  const CONFIG_ARG := "/etc/gardener-extension-diki/config/config.yaml"

  /** The controller's file system: a mounted ConfigMap has a file for each data key. */
  function ReadFile(value: string, location: string): Option<string> {
    if location == CONFIG_MOUNT + "/" + DATA_KEY then DecodeOuter(Chart(value)) else None
  }

  lemma ArgIsMounted()
    ensures CONFIG_ARG == CONFIG_MOUNT + "/" + DATA_KEY && CONFIG_ARG != ""
  {
    assert |CONFIG_ARG| == 47;
  }

  /** All of it: the value is printed by the chart, mounted as the controller's file, read, checked, applied
      and rendered. A flush-left value is delivered with all but one final line feed removed; and a value is
      delivered as it is if and only if it is flush left and ends in at most one line feed, or is empty. */
  method DeliverChart(options: DikiOptions, target: ConfigurationCell, value: string, v: Values)
    returns (ok: bool, resources: seq<Object>)
    requires options.configLocation == CONFIG_ARG
    modifies options`config, target
    ensures Flush(value) ==> ok && Delivered(resources, v.namespace, Some(Clipped(value)))
    ensures ok && Delivered(resources, v.namespace, if value == "" then None else Some(value)) <==>
              value == "" || (Flush(value) && Clipped(value) == value)
  {
    var read := (location: string) => ReadFile(value, location);
    var decode := (text: string) => DecodeConfiguration(text);
    ArgIsMounted();
    ChartFile(value);
    if value != "" {
      ClippedText(value);
    }
    ok, resources := Deliver(options, target, read, decode, v);
    if ok && Delivered(resources, v.namespace, if value == "" then None else Some(value)) {
      DeliveredOnce(resources, v.namespace, ConfiguredText(options.configLocation, read, decode),
                    if value == "" then None else Some(value));
    }
  }
}
