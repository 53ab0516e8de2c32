/** The shape of an integration entry: what it offers as triggers and
    actions, how it authenticates, and whether it is connected. */
module IntegrationTypes {
  import opened Common

  /** `'trigger' | 'action'` */
  datatype IntegrationType = TriggerAction | ActionAction

  datatype FieldType = Text | Select | Number | Boolean | Password

  /** `caption` is the record's `label` field, here and below. */
  datatype FieldOption = FieldOption(caption: string, value: string)

  /** `fieldType` is the record's `type` field. */
  datatype IntegrationField = IntegrationField(
    name: string,
    caption: string,
    fieldType: FieldType,
    required: Option<bool>,
    placeholder: Option<string>,
    options: Option<seq<FieldOption>>)

  /** `actionType` is the record's `type` field. */
  datatype IntegrationAction = IntegrationAction(
    id: string,
    caption: string,
    actionType: IntegrationType,
    description: string,
    fields: Option<seq<IntegrationField>>)

  /** `'api_key' | 'oauth' | 'none'` */
  datatype AuthType = ApiKey | OAuth | NoAuth

  datatype Integration = Integration(
    id: string,
    name: string,
    description: string,
    icon: string,
    authType: AuthType,
    connected: bool,
    category: string,
    actions: seq<IntegrationAction>,
    triggers: seq<IntegrationAction>)
}
