/**
 * How a form field becomes a form group, in both generations of the form builder. The markup
 * libraries are foreign, so a group is described by its parts rather than rendered.
 */
module FormWidgets {
  import opened Wrappers
  import opened CrudTypes

  /** The first generation (`Crud.go`) or the second (`v2/`). */
  datatype Generation = First | Second

  datatype InputType = TextInput | NumberInput | PasswordInput

  /**
   * The input element of a group. `model` names the client-side model property the input is
   * bound to, which is the field's name.
   */
  datatype Widget =
    | Input(inputType: InputType, model: string)
    | TextArea(model: string)
    | Select(model: string, options: seq<FormFieldOption>)
    | DateTimePicker(model: string)
    | HtmlEditor(model: string)
    | ImagePicker(model: string, browseUrl: Option<string>)
    | InlineImage(model: string)
    | Verbatim(html: string)

  /** The field types that have a widget of their own; every other type gets the text input. */
  predicate HasOwnWidget(gen: Generation, fieldType: string)
  {
    fieldType in {TypeImage, TypeDatetime, TypeHtmlarea, TypeNumber, TypePassword, TypeSelect, TypeTextarea}
    || (gen == Second && fieldType in {TypeImageInline, TypeBlockarea, TypeRaw})
  }

  /** The options callback's list, or none when the field has no callback. */
  function DynamicOptions(field: FormField): seq<FormFieldOption>
  {
    match field.optionsF
    case None => []
    case Some(f) => f()
  }

  /** The widget for a field, chosen by its type tag. */
  function WidgetFor(gen: Generation, field: FormField, fileManagerUrl: string): (w: Widget)
    ensures !HasOwnWidget(gen, field.fieldType) ==> w == Input(TextInput, field.name)
    ensures w.Verbatim? <==> gen == Second && field.fieldType == TypeRaw
    ensures w.Verbatim? ==> w.html == field.value
    ensures !w.Verbatim? ==> w.model == field.name
    ensures w.Select? <==> field.fieldType == TypeSelect
    ensures w.Select? ==> (|w.options| == |field.options| + |DynamicOptions(field)|
                           && w.options[..|field.options|] == field.options
                           && w.options[|field.options|..] == DynamicOptions(field))
    ensures w.ImagePicker? <==> field.fieldType == TypeImage
    ensures w.ImagePicker? ==> w.browseUrl == if fileManagerUrl == "" then None else Some(fileManagerUrl)
    ensures w.InlineImage? <==> gen == Second && field.fieldType == TypeImageInline
    ensures w.DateTimePicker? <==> field.fieldType == TypeDatetime
    ensures w.HtmlEditor? <==> field.fieldType == TypeHtmlarea
    ensures w == Input(NumberInput, field.name) <==> field.fieldType == TypeNumber
    ensures w == Input(PasswordInput, field.name) <==> field.fieldType == TypePassword
    ensures w.TextArea? <==> field.fieldType == TypeTextarea || (gen == Second && field.fieldType == TypeBlockarea)
  {
    var name := field.name;
    var t := field.fieldType;
    if t == TypeImage then ImagePicker(name, if fileManagerUrl == "" then None else Some(fileManagerUrl))
    else if gen == Second && t == TypeImageInline then InlineImage(name)
    else if t == TypeDatetime then DateTimePicker(name)
    else if t == TypeHtmlarea then HtmlEditor(name)
    else if t == TypeNumber then Input(NumberInput, name)
    else if t == TypePassword then Input(PasswordInput, name)
    else if t == TypeSelect then Select(name, field.options + DynamicOptions(field))
    else if t == TypeTextarea || (gen == Second && t == TypeBlockarea) then TextArea(name)
    else if gen == Second && t == TypeRaw then Verbatim(field.value)
    else Input(TextInput, name)
  }

  /** A group's caption (label element): its text and whether it carries the required-field marker. */
  datatype FieldLabel = FieldLabel(text: string, requiredMark: bool)

  /** One form group: the input's element id (second generation only), caption, input and help. */
  datatype FormGroup = FormGroup(
    inputId: Option<string>,
    caption: Option<FieldLabel>,
    widget: Widget,
    help: Option<string>)

  /**
   * The group for one field. The label falls back to the field name and is marked when the field
   * is required; a second-generation raw field has no label. Help appears only when given.
   */
  function GroupFor(gen: Generation, field: FormField, fileManagerUrl: string, inputId: Option<string>): (g: FormGroup)
    ensures g.inputId == inputId
    ensures g.caption.None? <==> gen == Second && field.fieldType == TypeRaw
    ensures g.caption.Some? ==> (g.caption.value.requiredMark == field.required
                                 && g.caption.value.text == (if field.labelText == "" then field.name else field.labelText))
    ensures g.help == if field.help == "" then None else Some(field.help)
    ensures g.widget == WidgetFor(gen, field, fileManagerUrl)
  {
    var text := if field.labelText == "" then field.name else field.labelText;
    var caption := if gen == Second && field.fieldType == TypeRaw then None else Some(FieldLabel(text, field.required));
    FormGroup(inputId, caption, WidgetFor(gen, field, fileManagerUrl), if field.help == "" then None else Some(field.help))
  }
}
