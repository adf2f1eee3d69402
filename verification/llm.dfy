/** The hosted text-generation service, seen from the handlers: given a
    prompt it either returns a completion or raises. Which text it returns is
    not modelled; handlers receive the service as a function of the prompt. */
module Llm {

  datatype Completion = Completed(text: string) | Raised
}
