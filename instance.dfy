/** Instance creation and the validation/debug hook: which validation
    layers are enabled, which instance extensions are requested, how the
    debug messenger is configured, and how the debug callback describes and
    routes a message. */
module Instance {
  import opened Wrappers

  const DebugUtilsExtensionName: string := "VK_EXT_debug_utils"

  /** `r` keeps some of the elements of `s`, in their order. */
  ghost predicate IsSubsequence<T>(r: seq<T>, s: seq<T>)
    decreases |s|
  {
    r == [] || (s != [] && ((r[0] == s[0] && IsSubsequence(r[1..], s[1..])) || IsSubsequence(r, s[1..])))
  }

  /** The configured validation layers that the instance supports, in their
      configured order; a layer is supported when its name is among the
      available layer names. Unsupported layers are dropped (the source logs
      a warning for each). */
  function AssembleValidationLayers(configured: seq<string>, available: seq<string>): (r: seq<string>)
    ensures IsSubsequence(r, configured)
    ensures forall j :: 0 <= j < |r| ==> r[j] in available
    ensures forall x :: multiset(r)[x] == if x in available then multiset(configured)[x] else 0
  {
    if configured == [] then []
    else
      var rest := AssembleValidationLayers(configured[1..], available);
      assert configured == [configured[0]] + configured[1..];
      if configured[0] in available then [configured[0]] + rest else rest
  }

  /** VK_MAKE_VERSION. */
  function MakeVersion(major: nat, minor: nat, patch: nat): nat
    requires minor < 0x400 && patch < 0x1000
  {
    major * 0x40_0000 + minor * 0x1000 + patch
  }

  datatype InstanceCreateInfo = InstanceCreateInfo(
    applicationName: string,
    applicationVersion: nat,
    engineName: string,
    engineVersion: nat,
    apiVersion: nat,
    enabledExtensions: seq<string>,
    enabledLayers: seq<string>)

  /** The instance extensions: those the windowing system requires, then the
      configured ones, then the debug-utils extension when at least one
      validation layer survived. */
  function InstanceExtensions(windowing: seq<string>, configured: seq<string>, enabledLayers: seq<string>): (r: seq<string>)
    ensures |r| == |windowing| + |configured| + (if enabledLayers == [] then 0 else 1)
    ensures r[..|windowing| + |configured|] == windowing + configured
    ensures enabledLayers != [] ==> r[|r| - 1] == DebugUtilsExtensionName
  {
    windowing + configured + (if |enabledLayers| > 0 then [DebugUtilsExtensionName] else [])
  }

  /** The create-info of `create_instance`: engine "cg_base" 0.1.0 on API
      version 1.1, the assembled extensions and the supported layers. */
  function CreateInstanceInfo(
    applicationName: string, applicationVersion: nat,
    windowingExtensions: seq<string>, configuredExtensions: seq<string>,
    configuredLayers: seq<string>, availableLayers: seq<string>): (info: InstanceCreateInfo)
    ensures info.apiVersion == MakeVersion(1, 1, 0) && info.engineVersion == MakeVersion(0, 1, 0)
    ensures forall x :: x in info.enabledLayers <==> x in configuredLayers && x in availableLayers
    ensures info.enabledLayers == AssembleValidationLayers(configuredLayers, availableLayers)
    ensures info.enabledExtensions == InstanceExtensions(windowingExtensions, configuredExtensions, info.enabledLayers)
    ensures info.applicationName == applicationName && info.applicationVersion == applicationVersion
    ensures info.engineName == "cg_base"
  {
    var layers := AssembleValidationLayers(configuredLayers, availableLayers);
    assert forall x :: x in layers <==> multiset(layers)[x] > 0;
    InstanceCreateInfo(applicationName, applicationVersion, "cg_base", MakeVersion(0, 1, 0), MakeVersion(1, 1, 0),
      InstanceExtensions(windowingExtensions, configuredExtensions, layers), layers)
  }

  /** The debug-utils extension is requested exactly when some configured
      validation layer is supported. */
  lemma DebugExtensionIffSomeLayerSupported(
    applicationName: string, applicationVersion: nat,
    windowingExtensions: seq<string>, configuredExtensions: seq<string>,
    configuredLayers: seq<string>, availableLayers: seq<string>)
    ensures var info := CreateInstanceInfo(applicationName, applicationVersion, windowingExtensions,
                                           configuredExtensions, configuredLayers, availableLayers);
            |info.enabledExtensions| == |windowingExtensions| + |configuredExtensions| + 1
            <==> exists x :: x in configuredLayers && x in availableLayers
  {
    var layers := AssembleValidationLayers(configuredLayers, availableLayers);
    if x :| x in configuredLayers && x in availableLayers {
      assert multiset(layers)[x] > 0;
    }
  }

  // ----- the debug messenger and its callback -----

  /** Message-type bits of a debug-utils message. */
  datatype MessageType = General | Validation | Performance

  /** Message-severity bits, with their numeric values (the callback compares
      severities numerically). */
  const SeverityVerbose: nat := 0x0001
  const SeverityInfo: nat := 0x0010
  const SeverityWarning: nat := 0x0100
  const SeverityError: nat := 0x1000

  /** The severities the messenger subscribes to at a given compile-time log
      level: errors from level 1, warnings from 2, infos from 3, verbose
      messages from 4. */
  function SeverityMask(logLevel: nat): (m: set<nat>)
    requires logLevel > 0
    ensures SeverityError in m
    ensures SeverityWarning in m <==> logLevel > 1
    ensures SeverityInfo in m <==> logLevel > 2
    ensures SeverityVerbose in m <==> logLevel > 3
    ensures m <= {SeverityError, SeverityWarning, SeverityInfo, SeverityVerbose}
  {
    {SeverityError}
    + (if logLevel > 1 then {SeverityWarning} else {})
    + (if logLevel > 2 then {SeverityInfo} else {})
    + (if logLevel > 3 then {SeverityVerbose} else {})
  }

  datatype MessengerCreateInfo = MessengerCreateInfo(severities: set<nat>, messageTypes: set<MessageType>)

  datatype DebugSetupError = ProcAddressNotFound | CreateMessengerFailed

  /** `setup_vk_debug_callback`: nothing happens at log level 0 or when no
      validation layer is CONFIGURED (whether any is supported is not looked
      at); otherwise the creation entry point must be found and must succeed,
      and the messenger subscribes to the level's severities and to all three
      message types. */
  function SetupDebugCallback(logLevel: nat, configuredLayers: seq<string>, procFound: bool, createSucceeds: bool)
    : (r: Result<Option<MessengerCreateInfo>, DebugSetupError>)
    ensures r == Success(None) <==> logLevel == 0 || configuredLayers == []
    ensures r.Failure? ==> r.error == if procFound then CreateMessengerFailed else ProcAddressNotFound
    ensures r.Success? && r.value.Some? ==>
              logLevel > 0 && r.value.value.severities == SeverityMask(logLevel)
              && r.value.value.messageTypes == {General, Validation, Performance}
  {
    if logLevel == 0 || configuredLayers == [] then Success(None)
    else if !procFound then Failure(ProcAddressNotFound)
    else if !createSucceeds then Failure(CreateMessengerFailed)
    else Success(Some(MessengerCreateInfo(SeverityMask(logLevel), {General, Validation, Performance})))
  }

  /** The names of the message's types, in the order General, Validation,
      Performance. */
  function TypeNames(types: set<MessageType>): seq<string>
  {
    (if General in types then ["General"] else [])
    + (if Validation in types then ["Validation"] else [])
    + (if Performance in types then ["Performance"] else [])
  }

  const Separator: string := ", "

  /** The names separated by ", ". */
  function Join(names: seq<string>): string
  {
    if names == [] then "" else if |names| == 1 then names[0] else names[0] + Separator + Join(names[1..])
  }

  /** Every name followed by ", ", as the callback appends them. */
  function WithSeparators(names: seq<string>): (s: string)
    ensures names != [] ==> |s| >= 2
  {
    if names == [] then "" else names[0] + Separator + WithSeparators(names[1..])
  }

  /** The callback's fragment for one type bit: the name and a separator
      when the bit is set. */
  function Fragment(name: string, present: bool): string
  {
    if present then name + Separator else ""
  }

  lemma {:induction false} WithSeparatorsAppend(a: seq<string>, b: seq<string>)
    ensures WithSeparators(a + b) == WithSeparators(a) + WithSeparators(b)
  {
    if a != [] {
      WithSeparatorsAppend(a[1..], b);
      assert (a + b)[1..] == a[1..] + b;
    } else {
      assert a + b == b;
    }
  }

  /** A name that may be absent, separated. */
  lemma SeparatedOptional(name: string, present: bool)
    ensures WithSeparators(if present then [name] else []) == Fragment(name, present)
  {
    if present {
      assert [name][1..] == [];
    }
  }

  /** The separated names of the type bits are the callback's appended
      fragments. */
  lemma SeparatedTypeNames(types: set<MessageType>)
    ensures WithSeparators(TypeNames(types))
            == Fragment("General", General in types) + Fragment("Validation", Validation in types)
               + Fragment("Performance", Performance in types)
  {
    var g: seq<string> := if General in types then ["General"] else [];
    var v: seq<string> := if Validation in types then ["Validation"] else [];
    var p: seq<string> := if Performance in types then ["Performance"] else [];
    assert TypeNames(types) == g + v + p;
    WithSeparatorsAppend(g + v, p);
    WithSeparatorsAppend(g, v);
    SeparatedOptional("General", General in types);
    SeparatedOptional("Validation", Validation in types);
    SeparatedOptional("Performance", Performance in types);
  }

  lemma {:induction false} StripLastSeparator(names: seq<string>)
    requires names != []
    ensures WithSeparators(names)[..|WithSeparators(names)| - 2] == Join(names)
  {
    if |names| > 1 {
      StripLastSeparator(names[1..]);
      var tail := WithSeparators(names[1..]);
      assert WithSeparators(names) == names[0] + Separator + tail;
      assert (names[0] + Separator + tail)[..|names[0] + Separator + tail| - 2] == names[0] + Separator + tail[..|tail| - 2];
    } else {
      assert WithSeparators(names) == names[0] + Separator;
    }
  }

  lemma NoKnownTypeMeansNone(types: set<MessageType>)
    requires General !in types && Validation !in types && Performance !in types
    ensures types == {}
  {
    forall t | t in types ensures false {
      match t {
        case General =>
        case Validation =>
        case Performance =>
      }
    }
  }

  datatype LogRoute = LogError | LogWarning | LogInfo | LogVerbose | NotLogged

  /** The log level the callback routes a message to, by numeric comparison
      of its severity against the error, warning, info and verbose bits. */
  function RouteSeverity(severity: nat): (r: LogRoute)
    ensures r == LogError <==> severity >= SeverityError
    ensures r == LogWarning <==> SeverityWarning <= severity < SeverityError
    ensures r == LogInfo <==> SeverityInfo <= severity < SeverityWarning
    ensures r == LogVerbose <==> SeverityVerbose <= severity < SeverityInfo
    ensures r == NotLogged <==> severity == 0
  {
    if severity >= SeverityError then LogError
    else if severity >= SeverityWarning then LogWarning
    else if severity >= SeverityInfo then LogInfo
    else if severity >= SeverityVerbose then LogVerbose
    else NotLogged
  }

  /** Every severity the messenger subscribes to is logged, at the level of
      the same name. */
  lemma SubscribedSeveritiesAreLogged(logLevel: nat, severity: nat)
    requires logLevel > 0 && severity in SeverityMask(logLevel)
    ensures RouteSeverity(severity) != NotLogged
    ensures severity == SeverityError ==> RouteSeverity(severity) == LogError
    ensures severity == SeverityWarning ==> RouteSeverity(severity) == LogWarning
    ensures severity == SeverityInfo ==> RouteSeverity(severity) == LogInfo
    ensures severity == SeverityVerbose ==> RouteSeverity(severity) == LogVerbose
  {
  }

  datatype CallbackResult = CallbackResult(route: LogRoute, typeDescription: string, abortCall: bool)

  /** `vk_debug_callback`: builds the type description by appending each
      set type's name and ", ", then strips the last separator and wraps it
      as "(...) " (it stays empty when no known type bit is set); routes the
      message by severity; and never asks the API to abort the call that
      triggered it. */
  method DebugCallback(severity: nat, types: set<MessageType>) returns (r: CallbackResult)
    ensures !r.abortCall && r.route == RouteSeverity(severity)
    ensures r.typeDescription == "" <==> types == {}
    ensures types != {} ==> r.typeDescription == "(" + Join(TypeNames(types)) + ") "
  {
    var description := "";
    if General in types {
      description := description + "General" + Separator;
    }
    assert description == Fragment("General", General in types);
    if Validation in types {
      description := description + "Validation" + Separator;
    }
    ghost var twoNames := description;
    assert twoNames == Fragment("General", General in types) + Fragment("Validation", Validation in types);
    if Performance in types {
      description := description + "Performance" + Separator;
    }
    assert description == twoNames + Fragment("Performance", Performance in types);
    SeparatedTypeNames(types);
    if |description| > 0 {
      StripLastSeparator(TypeNames(types));
      description := "(" + description[..|description| - 2] + ") ";
    } else {
      NoKnownTypeMeansNone(types);
    }
    r := CallbackResult(RouteSeverity(severity), description, false);
  }
}
