/** The application's record types (`src/types/index.ts`). Optional properties
    become `Option`; `Date` values become integer timestamps supplied by the
    caller; `Record<string, string>` becomes a map. */
module Types {

  datatype Option<T> = None | Some(value: T)

  datatype Result<T> = Ok(value: T) | Err(message: string)

  /** A point in time, standing for a JavaScript `Date`. */
  type Timestamp = int

  datatype User = User(id: string, email: string, name: Option<string>, createdAt: Timestamp)

  /** The six field types a briefing form can hold. */
  datatype FieldType = Text | Textarea | Dropdown | Number | Date | Email

  datatype BriefingField = BriefingField(
    id: string,
    labelText: string,
    fieldType: FieldType,
    options: Option<seq<string>>,
    required: bool,
    placeholder: Option<string>,
    value: Option<string>,
    tip: Option<string>)

  datatype BriefingResponse = BriefingResponse(
    id: string,
    briefingId: string,
    answers: map<string, string>,
    submittedBy: Option<string>,
    submittedAt: Timestamp)

  datatype Briefing = Briefing(
    id: string,
    title: string,
    description: Option<string>,
    fields: seq<BriefingField>,
    createdAt: Timestamp,
    updatedAt: Option<Timestamp>,
    createdBy: string,
    responses: seq<BriefingResponse>)
}
