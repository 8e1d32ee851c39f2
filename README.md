# Template-config bundle: configuration and default variables provider

A Dafny model of the configuration-time part of dropwizard-template-config:

- `TemplateConfigBundleConfiguration` (module `BundleConfiguration`,
  `bundle_configuration.dfy`): the fluent, mutable settings object. It has a
  charset (UTF-8 by default), two template-source overrides
  `resourceIncludePath` and `fileIncludePath` that exclude each other, an
  optional `outputPath`, and an insertion-ordered set of custom variables
  providers. It is a class with those five fields. Each setter is a method
  that changes only its own field and returns the object itself, which is
  what lets calls be chained. The two include-path setters throw
  `IllegalStateException` while the other path is present. This is modelled
  as `Result.Failure(IllegalState(message))`, with the source's exact
  messages, and a failing call leaves the object unchanged. The getters
  (`GetCharset`, `GetResourceIncludePath`, `GetFileIncludePath`,
  `GetOutputPath`, `GetCustomProviders`) are functions that read the fields.
  The setters' contracts are written in terms of them.
- `DefaultTemplateConfigVariablesProvider` (module `VariablesProvider`,
  `variables_provider.dfy`): a namespace that is fixed at construction, and a
  mutable string-to-string map. The map is its own object (`StringMap`, a
  mutable `Map<String, String>` whose keys compare by `String.equals`, such
  as the `HashMap` the one-argument constructor creates). The two-argument constructor keeps the
  caller's map object itself, and `GetVariables` hands out that same object.
  So every `Put` is visible through any reference to it.

Each setter is also given as a pure function on the value of all five fields
(`Settings`). `WithCharset`, `WithResourceIncludePath`, `WithFileIncludePath`,
`WithOutputPath` and `WithCustomProvider` are these functions, and `Apply`
dispatches over a `Call`. Each class method's `ensures` ties its new state to
that function. `Run` gives the effect of a chain of calls: the first
exception ends the chain, and the calls before it keep their effect. The
lemmas about `Run` show two things. No chain can break the invariant "at most
one include path, no provider twice". And any chain that sets both include
paths throws. `Replay` does the same for a series of `put` calls on a
provider's map.

`Valid()` is the object invariant of a configuration. The constructor
establishes it and every setter preserves it. The methods require it of the
object they act on, as a class invariant, and never of their arguments.

Two client methods, `ConfigurationScenario` and `LiveVariablesScenario`,
use only the contracts to follow a chain of calls and a shared map.

## Model

| member | source | states |
|---|---|---|
| `BundleConfiguration.TemplateConfigBundleConfiguration.constructor` | src/main/java/de/thomaskrille/dropwizard_template_config/TemplateConfigBundleConfiguration.java:15-19 | a fresh configuration has charset UTF-8, no resource, file or output path, and an empty provider set; it satisfies the invariant |
| `BundleConfiguration.TemplateConfigBundleConfiguration.GetCharset` | src/main/java/de/thomaskrille/dropwizard_template_config/TemplateConfigBundleConfiguration.java:26-28 | returns the charset field; the constructor's and setters' `ensures` are written in terms of it |
| `BundleConfiguration.TemplateConfigBundleConfiguration.GetResourceIncludePath` | src/main/java/de/thomaskrille/dropwizard_template_config/TemplateConfigBundleConfiguration.java:47-49 | returns the resource include path field, which is an `Option` already where Java wraps the nullable field in `Optional.ofNullable`; under the invariant it is never Some while the file include path is; the constructor's and setters' `ensures` use it |
| `BundleConfiguration.TemplateConfigBundleConfiguration.GetFileIncludePath` | src/main/java/de/thomaskrille/dropwizard_template_config/TemplateConfigBundleConfiguration.java:56-58 | returns the file include path field, an `Option` already where Java uses `Optional.ofNullable`; under the invariant it is never Some while the resource include path is; the constructor's and setters' `ensures` use it |
| `BundleConfiguration.TemplateConfigBundleConfiguration.GetOutputPath` | src/main/java/de/thomaskrille/dropwizard_template_config/TemplateConfigBundleConfiguration.java:65-67 | returns the output path field, an `Option` already where Java uses `Optional.ofNullable`; the constructor's and setters' `ensures` use it |
| `BundleConfiguration.TemplateConfigBundleConfiguration.GetCustomProviders` | src/main/java/de/thomaskrille/dropwizard_template_config/TemplateConfigBundleConfiguration.java:74-76 | returns the providers in insertion order, never one twice under the invariant; the constructor's and `AddCustomProvider`'s `ensures` use it |
| `BundleConfiguration.TemplateConfigBundleConfiguration.SetCharset` | src/main/java/de/thomaskrille/dropwizard_template_config/TemplateConfigBundleConfiguration.java:37-40 | never fails; the charset getter then returns the new charset, no other field changes, the same object is returned |
| `BundleConfiguration.TemplateConfigBundleConfiguration.SetResourceIncludePath` | src/main/java/de/thomaskrille/dropwizard_template_config/TemplateConfigBundleConfiguration.java:89-98 | fails exactly when a file include path is present, with the source's IllegalStateException message, and then changes nothing; otherwise the getter returns Some(path), only that field changes, the object itself is returned; the invariant is kept |
| `BundleConfiguration.TemplateConfigBundleConfiguration.SetFileIncludePath` | src/main/java/de/thomaskrille/dropwizard_template_config/TemplateConfigBundleConfiguration.java:110-119 | fails exactly when a resource include path is present, with the source's message, and then changes nothing; otherwise the getter returns Some(path), only that field changes, the object itself is returned; the invariant is kept |
| `BundleConfiguration.TemplateConfigBundleConfiguration.SetOutputPath` | src/main/java/de/thomaskrille/dropwizard_template_config/TemplateConfigBundleConfiguration.java:128-131 | never fails; the getter then returns Some(path), no other field changes, the same object is returned |
| `BundleConfiguration.TemplateConfigBundleConfiguration.AddCustomProvider` | src/main/java/de/thomaskrille/dropwizard_template_config/TemplateConfigBundleConfiguration.java:139-142 | a provider not yet in the set is appended at the end; one already present leaves the set unchanged; paths and charset are untouched; the same object is returned |
| `BundleConfiguration.InsertProvider` | src/main/java/de/thomaskrille/dropwizard_template_config/TemplateConfigBundleConfiguration.java:140 | LinkedHashSet insertion by reference: the result holds exactly the old providers and the new one, the old order is kept as a prefix, a present provider changes nothing, a new one goes last, and no provider is ever held twice |
| `BundleConfiguration.WithCharset` | src/main/java/de/thomaskrille/dropwizard_template_config/TemplateConfigBundleConfiguration.java:37-40 | the charset becomes the argument and every other field is as before; the invariant is kept |
| `BundleConfiguration.WithResourceIncludePath` | src/main/java/de/thomaskrille/dropwizard_template_config/TemplateConfigBundleConfiguration.java:89-98 | fails if and only if the file include path is present, with the fileIncludePath message; on success the resource path is Some(path) and nothing else differs; the invariant is kept |
| `BundleConfiguration.WithFileIncludePath` | src/main/java/de/thomaskrille/dropwizard_template_config/TemplateConfigBundleConfiguration.java:110-119 | fails if and only if the resource include path is present, with the resourceIncludePath message; on success the file path is Some(path) and nothing else differs; the invariant is kept |
| `BundleConfiguration.WithOutputPath` | src/main/java/de/thomaskrille/dropwizard_template_config/TemplateConfigBundleConfiguration.java:128-131 | the output path becomes Some(path) and every other field is as before; the invariant is kept |
| `BundleConfiguration.WithCustomProvider` | src/main/java/de/thomaskrille/dropwizard_template_config/TemplateConfigBundleConfiguration.java:139-142 | the provider set becomes the ordered-set insertion of the provider and every other field is as before; the invariant is kept |
| `BundleConfiguration.Apply` | src/main/java/de/thomaskrille/dropwizard_template_config/TemplateConfigBundleConfiguration.java:37-142 | a setter call throws if and only if it sets one include path while the other is present; every call that succeeds keeps the invariant |
| `BundleConfiguration.RunPreservesConsistency` | src/main/java/de/thomaskrille/dropwizard_template_config/TemplateConfigBundleConfiguration.java:89-119 | from a consistent configuration, any chain of setter calls, whether it completes or throws part-way, leaves at most one include path present and no provider twice |
| `BundleConfiguration.StaysBlocked` | src/main/java/de/thomaskrille/dropwizard_template_config/TemplateConfigBundleConfiguration.java:89-119 | no successful setter call removes an include path, so a call refused now is refused after it too |
| `BundleConfiguration.BlockedCallAheadFails` | src/main/java/de/thomaskrille/dropwizard_template_config/TemplateConfigBundleConfiguration.java:89-119 | a chain that contains a call setting one include path while the other is already present throws one of the two IllegalStateExceptions |
| `BundleConfiguration.BothIncludePathsFail` | src/main/java/de/thomaskrille/dropwizard_template_config/TemplateConfigBundleConfiguration.java:89-119 | any chain that sets both resourceIncludePath and fileIncludePath, in either order and from any configuration, throws an IllegalStateException |
| `BundleConfiguration.AddAllProperties` | src/main/java/de/thomaskrille/dropwizard_template_config/TemplateConfigBundleConfiguration.java:139-142 | after successive addCustomProvider calls, the earlier providers keep their positions at the front, the set holds exactly the earlier and the added providers, and none twice |
| `BundleConfiguration.AddAllPresent` | src/main/java/de/thomaskrille/dropwizard_template_config/TemplateConfigBundleConfiguration.java:139-142 | adding only providers that are already present leaves the ordered set unchanged |
| `BundleConfiguration.AddAllIdempotent` | src/main/java/de/thomaskrille/dropwizard_template_config/TemplateConfigBundleConfiguration.java:139-142 | repeating the same series of addCustomProvider calls changes nothing |
| `VariablesProvider.Updated` | src/main/java/de/thomaskrille/dropwizard_template_config/DefaultTemplateConfigVariablesProvider.java:19-21 | after put(name, value) the name maps to value, whether new or overwritten; every other key keeps its value and no other key is added |
| `VariablesProvider.ReplayKeys` | src/main/java/de/thomaskrille/dropwizard_template_config/DefaultTemplateConfigVariablesProvider.java:19-21 | after a series of puts the keys are exactly the original keys and the names that were put |
| `VariablesProvider.ReplayUntouchedKey` | src/main/java/de/thomaskrille/dropwizard_template_config/DefaultTemplateConfigVariablesProvider.java:19-21 | a key that no put in the series names keeps its presence and its value |
| `VariablesProvider.ReplayLastPutWins` | src/main/java/de/thomaskrille/dropwizard_template_config/DefaultTemplateConfigVariablesProvider.java:19-21 | after a series of puts a key holds the value of the last put that named it |
| `VariablesProvider.StringMap.constructor` | src/main/java/de/thomaskrille/dropwizard_template_config/DefaultTemplateConfigVariablesProvider.java:11 | a new HashMap is empty |
| `VariablesProvider.StringMap.Put` | src/main/java/de/thomaskrille/dropwizard_template_config/DefaultTemplateConfigVariablesProvider.java:20 | Map.put updates the map in place by the key-value laws of `Updated` |
| `VariablesProvider.DefaultTemplateConfigVariablesProvider.constructor` | src/main/java/de/thomaskrille/dropwizard_template_config/DefaultTemplateConfigVariablesProvider.java:10-12 | the namespace is the argument and the variables map is a new, empty map |
| `VariablesProvider.DefaultTemplateConfigVariablesProvider.WithData` | src/main/java/de/thomaskrille/dropwizard_template_config/DefaultTemplateConfigVariablesProvider.java:14-17 | the namespace is the argument and the variables map is the supplied map object itself, with its entries as they were |
| `VariablesProvider.DefaultTemplateConfigVariablesProvider.Put` | src/main/java/de/thomaskrille/dropwizard_template_config/DefaultTemplateConfigVariablesProvider.java:19-21 | the map returned by GetVariables is updated in place by the key-value laws of `Updated`; only that map is modified |
| `VariablesProvider.DefaultTemplateConfigVariablesProvider.GetNamespace` | src/main/java/de/thomaskrille/dropwizard_template_config/DefaultTemplateConfigVariablesProvider.java:24-26 | returns the namespace given to the constructor; the field is a `const`, so no operation can change it |
| `VariablesProvider.DefaultTemplateConfigVariablesProvider.GetVariables` | src/main/java/de/thomaskrille/dropwizard_template_config/DefaultTemplateConfigVariablesProvider.java:29-31 | returns the backing map object itself (the same reference on every call), not a copy, so it reflects every put made before or after |

## Left out

- Null arguments. Every path is a `string`, so a setter cannot be passed `null` to clear a field. The Java documentation says paths must not be null.
- `Charset` is only a name. Encoding behaviour belongs to `java.nio` and is not modelled.
- The `TemplateConfigVariablesProvider` interface is not part of this model. A custom provider is any `object`, and membership in the provider set is by reference. That is `LinkedHashSet`'s behaviour for providers that keep `Object.equals`, such as `DefaultTemplateConfigVariablesProvider`; providers that override `equals` and `hashCode` are deduplicated by value in the source and are not modelled.
- The set returned by `customProviders()` is mutable, and the getter exposes it. `GetCustomProviders` returns the value of the field, so changes a caller makes to the returned set are not modelled.
- `Map.put` returns the previous value. `StringMap.Put` does not return it, because the provider ignores it.
- Unsynchronised concurrent use is not modelled, nor is a caller mutating a shared map during a render. The model is sequential.
- Template loading, rendering, writing the output file, the environment and system-property providers, and merging providers into a rendering context are not part of this model. They do I/O or call into the template engine, and the two modelled files do not contain them.
- Providers are compared by reference alone: the set is a `LinkedHashSet` and the modelled providers keep `Object.equals`; namespaces play no part in deduplication.
- VariablesProvider.DefaultTemplateConfigVariablesProvider.WithData and `VariablesProvider.StringMap.Put` assume the supplied map is mutable and compares keys by `String.equals`. The source accepts any `Map`: on an unmodifiable map (`Map.of`, `Collections.unmodifiableMap`, Guava's `ImmutableMap`) `put` throws `UnsupportedOperationException`, and on a map with another key order (a `TreeMap` with `String.CASE_INSENSITIVE_ORDER`) it can overwrite a different key. Neither is modelled.
