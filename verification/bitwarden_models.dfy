/**
 * The Bitwarden item schema the migration fills in. Every property of the TypeScript classes
 * is optional; an unset one is `None` here. `NewItemTemplate` is what `new ItemTemplate()`
 * starts from: `notes` is `''` and `fields` is `[]`, everything else unset.
 */
module BitwardenModels {
  import opened Wrappers

  /** `FieldTypeEnum`: '0' text, '1' hidden, '2' boolean, '3' linked. */
  datatype FieldType = Text | Hidden | Boolean | Linked

  /** A custom field of an item. */
  datatype Field = Field(name: string, value: string, fieldType: FieldType)

  /** A login URI; `matchMode` is the string sent as `match`. */
  datatype Uri = Uri(uri: string, matchMode: string)

  datatype ItemLogin = ItemLogin(
    uris: Option<seq<Uri>>,
    username: Option<string>,
    password: Option<string>,
    totp: Option<string>)

  /** `ItemTemplateTypeEnum`: '1' login, '2' secure note, '3' card, '4' identity. */
  datatype ItemType = Login | SecureNote | Card | Identity

  datatype ItemTemplate = ItemTemplate(
    organizationId: Option<string>,
    collectionId: Option<seq<string>>,
    folderId: Option<string>,
    itemType: Option<ItemType>,
    name: Option<string>,
    notes: Option<string>,
    favorite: Option<bool>,
    fields: Option<seq<Field>>,
    login: Option<ItemLogin>,
    reprompt: Option<bool>)

  const NewItemTemplate: ItemTemplate :=
    ItemTemplate(None, None, None, None, None, Some(""), None, Some([]), None, None)

  const NewItemLogin: ItemLogin := ItemLogin(None, None, None, None)
}
