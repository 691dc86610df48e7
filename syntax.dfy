/** The parsed form of a query: an ordered chain of conditions. */
module Syntax {

  /** How a condition joins its predecessor; `Eof` marks the first condition. */
  datatype Link = Eof | And | Or

  /** `==` and `!=` compare case-insensitively on strings (OP_EQI, OP_NEQI).
      `Unsupported` is any other run of operator characters, such as `===`. */
  datatype Operator = Eqi | Neqi | Gt | Lt | Gte | Lte | Unsupported

  /** The type of a condition's literal, inferred from its surface form only. */
  datatype ExprType = Literal | Integer | Float | Boolean | Time

  datatype Condition = Condition(
    key: string,
    op: Operator,
    expr: string,
    exprType: ExprType,
    link: Link,
    negated: bool)

  predicate IsOrdering(op: Operator) {
    op == Gt || op == Lt || op == Gte || op == Lte
  }

  /** The link layout of a parsed chain: non-empty, the first condition carries
      `Eof` and every later one carries the link that joined it to its predecessor. */
  predicate WellLinked(cs: seq<Condition>) {
    |cs| > 0 && cs[0].link == Eof && forall i :: 0 < i < |cs| ==> cs[i].link != Eof
  }
}
