/** A BaseConfig instance: the fields the registry and the `customize` hook
    touch, with every other sub-configuration kept as an opaque value. */
module Configs {
  import opened Wrappers

  /** A member of EnvironmentType; which members exist is not part of this model. */
  datatype EnvironmentType = EnvironmentType(name: string)

  /** A member of LanguageType. */
  datatype LanguageType = LanguageType(code: string)

  /** The Python class of a configuration instance: BaseConfig or one of its subclasses. */
  datatype ConfigType = ConfigType(name: string)

  /** The value of a sub-configuration field this model does not look into. */
  type FieldValue = string

  /** The contents of an ElasticsearchAPMConfig object. */
  datatype ApmSettings = ApmSettings(environment: Option<EnvironmentType>, fields: map<string, FieldValue>)

  /** The contents of a configuration instance: ENVIRONMENT, LANGUAGE, the
      ELASTIC_APM sub-configuration, and the remaining sub-configurations
      (AUTH, KAFKA, REDIS, ...) by field name. */
  datatype Settings = Settings(
    environment: EnvironmentType,
    language: LanguageType,
    elasticApm: ApmSettings,
    services: map<string, FieldValue>)

  /** The APM sub-configuration reports the same environment as the top level. */
  predicate IsCustomized(s: Settings) {
    s.elasticApm.environment == Some(s.environment)
  }

  /** What `customize` leaves behind: ELASTIC_APM.ENVIRONMENT set from ENVIRONMENT. */
  function Customized(s: Settings): Settings {
    s.(elasticApm := s.elasticApm.(environment := Some(s.environment)))
  }

  /** `customize` establishes the copy and changes nothing else. */
  lemma CustomizedOnlyCopiesEnvironment(s: Settings)
    ensures IsCustomized(Customized(s))
    ensures Customized(s).environment == s.environment
    ensures Customized(s).language == s.language
    ensures Customized(s).services == s.services
    ensures Customized(s).elasticApm.fields == s.elasticApm.fields
  {
  }

  /** Running `customize` a second time has no further effect. */
  lemma CustomizeIdempotent(s: Settings)
    ensures Customized(Customized(s)) == Customized(s)
  {
  }

  /** `customize` leaves an instance alone exactly when it is already customised. */
  lemma CustomizedFixedPoints(s: Settings)
    ensures Customized(s) == s <==> IsCustomized(s)
  {
    if Customized(s) == s {
      assert Customized(s).elasticApm.environment == s.elasticApm.environment;
    }
  }

  /** An ElasticsearchAPMConfig object; other configurations may share it. */
  class ElasticApmConfig {
    var environment: Option<EnvironmentType>
    var fields: map<string, FieldValue>

    function View(): ApmSettings
      reads this
    {
      ApmSettings(environment, fields)
    }

    constructor (s: ApmSettings)
      ensures View() == s
    {
      environment := s.environment;
      fields := s.fields;
    }
  }

  /** A configuration instance (BaseConfig or a subclass); `configType` is its class. */
  class BaseConfig {
    const configType: ConfigType
    var environment: EnvironmentType
    var language: LanguageType
    var elasticApm: ElasticApmConfig
    var services: map<string, FieldValue>

    function View(): Settings
      reads this, elasticApm
    {
      Settings(environment, language, elasticApm.View(), services)
    }

    /** Builds an instance of class `t` holding `s`, with its own ELASTIC_APM object. */
    constructor (t: ConfigType, s: Settings)
      ensures configType == t && View() == s
      ensures fresh(elasticApm)
    {
      configType := t;
      environment := s.environment;
      language := s.language;
      elasticApm := new ElasticApmConfig(s.elasticApm);
      services := s.services;
    }

    /** The `customize` hook: writes into the nested ELASTIC_APM object in place,
        so every holder of that object sees the new environment. */
    method Customize()
      modifies elasticApm
      ensures View() == Customized(old(View()))
      ensures IsCustomized(View())
    {
      elasticApm.environment := Some(environment);
    }
  }
}
