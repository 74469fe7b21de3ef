/**
 * The streaming JSON writer the provider writes into, seen as the sequence
 * of calls it receives. Bytes, escaping and the writer's own scope checks
 * are not modelled.
 */
module JsonGenerator {

  /** One call on the writer. */
  datatype Event =
    | StartObject(name: string)          // writeObjectFieldStart(name)
    | Field(name: string, text: string)  // writeObjectField(name, text)
    | Structured(id: nat)                // whatever a structured argument writes of itself
    | EndObject                          // writeEndObject()

  /** An append-only writer: every call adds one event to the trace. */
  class Generator {
    var trace: seq<Event>

    constructor ()
      ensures trace == []
    {
      trace := [];
    }

    method WriteObjectFieldStart(name: string)
      modifies this
      ensures trace == old(trace) + [StartObject(name)]
    {
      trace := trace + [StartObject(name)];
    }

    method WriteObjectField(name: string, text: string)
      modifies this
      ensures trace == old(trace) + [Field(name, text)]
    {
      trace := trace + [Field(name, text)];
    }

    method WriteEndObject()
      modifies this
      ensures trace == old(trace) + [EndObject]
    {
      trace := trace + [EndObject];
    }

    /** A structured argument writing itself; its output is opaque here and tagged by its id. */
    method WriteStructured(id: nat)
      modifies this
      ensures trace == old(trace) + [Structured(id)]
    {
      trace := trace + [Structured(id)];
    }
  }
}
