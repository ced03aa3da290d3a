/**
 * The data model shared by the parser and the evaluator of YALisp:
 * syntax-tree nodes (`ast_node`), values (`value`) and the two outcome
 * records (`result`, `parse_result`). The C constructors `create_*_node`,
 * `create_*_value`, `create_success_result`, `create_error_result`,
 * `create_parse_success` and `create_parse_error` are the datatype
 * constructors below; their heap copies (`strdup`) and the `free_*`
 * functions have no counterpart in a garbage-collected model.
 */
module Ast {

  /** A syntax-tree node. An integer literal holds a mathematical integer. */
  datatype Node =
    | Int(value: int)
    | Sym(name: string)
    | Str(text: string)
    | List(items: seq<Node>)

  /** A value produced by the evaluator. */
  datatype Value = IntV(i: int) | StrV(s: string)

  /**
   * The outcome of parsing or evaluating: a payload or an error message,
   * never both. A parse outcome carries the node together with the new
   * cursor, the value the C code leaves behind in `*pos`.
   */
  datatype Result<T> = Ok(value: T) | Err(msg: string)
}
