/** The foreign tables the core reads and writes: the event plugin registry and the
    DOM property tables. Their own code is not part of this model; only the fields
    the core touches are kept, and the registry's lookups are given as functions. */
module Tables {
  import opened Common

  class EventPluginRegistry {
    /** `eventNameDispatchConfigs`: logical event name to its dispatch configuration. */
    var eventNameDispatchConfigs: map<string, DispatchConfig>
    /** The keys of `registrationNameModules`: handler prop names some plugin owns. */
    var registrationNameModules: set<string>
    /** `possibleRegistrationNames`: the diagnostics index of handler prop names. */
    var possibleRegistrationNames: map<string, string>
    /** `getEventType(topLevelType)`: the logical event name of a top-level type. */
    const getEventType: string -> string
    /** `findOrCreateDispatchConfig(topLevelType)` of the registry. */
    const findOrCreateDispatchConfig: string -> DispatchConfig

    constructor (
      configs: map<string, DispatchConfig>,
      modules: set<string>,
      possible: map<string, string>,
      eventType: string -> string,
      resolve: string -> DispatchConfig)
      ensures eventNameDispatchConfigs == configs
      ensures registrationNameModules == modules
      ensures possibleRegistrationNames == possible
      ensures getEventType == eventType && findOrCreateDispatchConfig == resolve
    {
      eventNameDispatchConfigs := configs;
      registrationNameModules := modules;
      possibleRegistrationNames := possible;
      getEventType := eventType;
      findOrCreateDispatchConfig := resolve;
    }
  }

  class DomProperty {
    /** The keys of `DOMProperty.properties`. */
    const properties: set<string>
    /** `DOMProperty.isReservedProp`. */
    const isReservedProp: string -> bool
    /** `DOMProperty.ATTRIBUTE_NAME_CHAR`, as a character class. */
    const isAttributeNameChar: char -> bool
    /** `DOMProperty.getPossibleStandardName`: a name to its correctly cased form. */
    var getPossibleStandardName: map<string, string>

    constructor (
      props: set<string>,
      reserved: string -> bool,
      nameChar: char -> bool,
      standardNames: map<string, string>)
      ensures properties == props && isReservedProp == reserved
      ensures isAttributeNameChar == nameChar
      ensures getPossibleStandardName == standardNames
    {
      properties := props;
      isReservedProp := reserved;
      isAttributeNameChar := nameChar;
      getPossibleStandardName := standardNames;
    }
  }
}
