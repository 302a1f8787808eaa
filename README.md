# BaseConfig registry and source priority (ArchiPy) in Dafny

This project models the core of `archipy/configs/base_config.py`: the
configuration class `BaseConfig` on which ArchiPy applications build their
settings.

- **Registry** (`registry.dfy`): the process-wide pair of class-level slots
  (`__global_config`, `__config_class_to_reload`) and the three class methods
  that use them. `global_config` returns the current instance or raises
  `AssertionError`. `set_global` runs `customize` on an instance, then stores
  the instance and its class. `reload` raises `RuntimeError` while nothing is
  stored; otherwise it constructs a new instance of the remembered class and
  hands it to `set_global`. The model is a `ConfigRegistry` class whose methods
  are proved against a value-level state machine (`Step`, `Run`), and lemmas
  over arbitrary call sequences state what the registry promises.
- **Configuration instances** (`configs.dfy`): `BaseConfig` and its nested
  `ElasticApmConfig` are heap objects. `Customize` writes the top-level
  `ENVIRONMENT` into the nested object in place, so every holder of that
  nested object sees the change. `Customized` is the same update on values,
  and lemmas about it state what changes and that it is idempotent.
- **Source priority** (`sources.dfy`): the tuple returned by
  `settings_customise_sources` (`Priority`) and its meaning. The first source
  in the tuple that defines a key supplies the value. The field default is
  used only when no source defines the key. `Merge` is the partner
  definition: it applies the sources lowest first, each one overwriting what
  came before. It is proved to agree with first-match.
- `wrappers.dfy` holds `Option`, `Result` and `Outcome`, used for Python's
  `None` and for raised exceptions.

Where the code and its documentation differ, the model follows the code.
The class docstring lists six tiers ending with "default values". The tuple
the code returns instead ends with `init_settings` (constructor keyword
arguments), below `.env`. Field defaults sit beneath all six sources. The
model has six sources with `InitArgs` last, plus a separate default.

Model assumptions:
- The constructor that `reload` calls is a parameter, `build`. It is a pure
  function from the remembered class to the contents of a new instance, or to
  a validation error. The instance it yields is freshly allocated, with its
  own `ELASTIC_APM` object. So customising it cannot touch the instance being
  replaced.
- Python's exceptions are returned as values. `NotSet` stands for the
  `AssertionError` of `global_config`. `ReloadWithoutInit` stands for the
  `RuntimeError` of `reload`. `BuildFailed` is the constructor's error, which
  `reload` lets through.

## Model

| member | source | states |
|---|---|---|
| `Sources.Rank` | archipy/configs/base_config.py:123-130 | every source kind occurs exactly once in the priority tuple, at the returned position |
| `Sources.FirstMatch` | archipy/configs/base_config.py:123-130 | the result is absent exactly when no source in the order defines the key; otherwise it is the value of a source that defines the key with no earlier source defining it |
| `Sources.Resolve` | archipy/configs/base_config.py:46-52 | when no source defines the key the field default is the result; when some source does, the result is the value of the first source in the priority tuple that defines it |
| `Sources.MergeIsFirstMatch` | archipy/configs/base_config.py:46-52 | applying the sources from lowest to highest priority, each overwriting, yields for every key exactly the first-match value, and defines the same keys |
| `Sources.LowerSourceIgnored` | archipy/configs/base_config.py:123-130 | in an order without repeats, once a source defines a key, removing that key from any later source does not change the result |
| `Sources.HigherSourceWins` | archipy/configs/base_config.py:46-52 | of two sources that both define a key, the lower-priority one is irrelevant to the resolved value |
| `Sources.SecretFilesWin` | archipy/configs/base_config.py:124 | a key defined by a secret file resolves to the secret file's value whatever the other sources hold |
| `Sources.InitArgsLowest` | archipy/configs/base_config.py:129 | a constructor argument is used when no other source defines the key; when another source does, the value comes from a source other than the constructor |
| `Sources.DefaultOnlyWhenUndefined` | archipy/configs/base_config.py:52 | the field default is the result when no source defines the key; otherwise the result is a value some source defines |
| `Configs.CustomizedOnlyCopiesEnvironment` | archipy/configs/base_config.py:138 | after the hook, `ELASTIC_APM.ENVIRONMENT` equals `ENVIRONMENT`, and `ENVIRONMENT`, `LANGUAGE`, the other sub-configurations and the other APM fields are unchanged |
| `Configs.CustomizeIdempotent` | archipy/configs/base_config.py:138 | running the hook twice gives the same contents as running it once |
| `Configs.CustomizedFixedPoints` | archipy/configs/base_config.py:138 | the hook leaves the contents unchanged exactly when the APM environment already equals the top-level one |
| `Configs.BaseConfig.Customize` | archipy/configs/base_config.py:132-138 | mutates only the nested APM object, in place; the instance's new contents are `Customized` of its old contents |
| `Configs.BaseConfig.constructor` | archipy/configs/base_config.py:89-111 | a new instance of the given class holds the given contents and owns a freshly allocated APM sub-configuration |
| `Registry.StepPreservesInv` | archipy/configs/base_config.py:165-166 | every call keeps the two slots filled together, with the remembered class equal to the current instance's class |
| `Registry.RunPreservesInv` | archipy/configs/base_config.py:86-87 | from any state meeting the invariant, in particular the empty initial slots, any sequence of calls keeps it |
| `Registry.NeverCleared` | archipy/configs/base_config.py:165-166 | once both slots are filled, no sequence of calls empties either |
| `Registry.ReadOnlyRun` | archipy/configs/base_config.py:150-152 | `global_config` calls and failed reloads leave the slots exactly as they were |
| `Registry.LastSetWins` | archipy/configs/base_config.py:155-166 | after `set_global(c)` and any later reads or failed reloads, `global_config` returns that very object `c` and the remembered class is `c`'s class |
| `Registry.FilledIffSet` | archipy/configs/base_config.py:163-166 | from a state meeting the invariant, the current slot ends filled exactly when it started filled or some call was `set_global` |
| `Registry.FailsUntilFirstSet` | archipy/configs/base_config.py:150-151 | from the initial slots, `global_config` fails, with NotSet, exactly when no call so far was `set_global`, and until then the slots stay empty |
| `Registry.UnsetStaysUnset` | archipy/configs/base_config.py:186-187 | before any `set_global`, no call, reloads included, fills a slot |
| `Registry.ReloadKeepsClass` | archipy/configs/base_config.py:189-190 | a reload that built an instance of the remembered class makes it current and keeps the remembered class; a failed build changes neither slot |
| `Registry.ConfigRegistry.constructor` | archipy/configs/base_config.py:86-87 | the registry starts with both slots empty, which satisfies its invariant `Valid` |
| `Registry.ConfigRegistry.GlobalConfig` | archipy/configs/base_config.py:140-152 | returns the current instance when one is stored and fails with NotSet exactly when none is; changes nothing |
| `Registry.ConfigRegistry.SetGlobal` | archipy/configs/base_config.py:154-166 | runs the hook on the given instance (its contents become `Customized` of the old ones), then stores that same object and its class; never fails, and leaves the invariant `Valid` holding |
| `Registry.ConfigRegistry.Reload` | archipy/configs/base_config.py:168-190 | while unset, fails with ReloadWithoutInit and changes nothing; if the build fails, returns its error and changes nothing; otherwise stores a fresh customised instance of the remembered class built from the builder's contents; the remembered class and the previous instance's contents are unchanged in every case, and the invariant `Valid` is preserved |

## Left out

- Reading the sources (secret directory, `pyproject.toml` searched three levels up, the TOML file, OS environment, `.env`), type coercion and validation: these happen inside pydantic-settings. Each source is an abstract key-to-value map, and construction is the `build` parameter.
- The `__` nested-delimiter splitting, the deep merge of nested values, `env_ignore_empty`, `case_sensitive` and `extra="ignore"` (lines 75-83): these are options handed to pydantic-settings, not behaviour of this file. Keys are flat.
- The per-service sub-configurations (`AuthConfig`, `KafkaConfig`, ...) and the members of `EnvironmentType` and `LanguageType` are opaque values. Only `ELASTIC_APM` and its `ENVIRONMENT` field are modelled as objects.
- The default values of the fields (lines 90-111) are not modelled field by field; the default enters only as the fallback in `Sources.Resolve`.
- Subclasses that override `customize`, and the `hasattr`/`callable` probe: every instance runs the base hook shown here.
- Python name mangling and per-subclass slots: `cls.__global_config = ...` writes to whichever class the method was called on. The model has one registry, as when everything goes through `BaseConfig` itself.
- Registry.ConfigRegistry.SetGlobal: is modelled only for configuration instances, as the parameter's annotation `config: T` asks. Python does not enforce that annotation. `set_global(None)` skips the hook (`None` has no `customize`), stores `None` as the current instance and `NoneType` as the class to reload. After that, `global_config` raises `AssertionError` again, and `reload` stores `None` again instead of raising. So the slots are no longer filled together, and the current slot is emptied. `Registry.Inv`, `Registry.NeverCleared` and `Registry.StepPreservesInv` hold only for calls with real instances.
- Thread safety: the source takes no lock and the model is sequential.
- Registry.ConfigRegistry.Reload: assumes the constructor gives the new instance its own `ELASTIC_APM` object, not one shared with the previous instance.
