/**
 * The syntax tree built by the grammar actions of main.py: one variant per
 * node constructor the actions call. The classes themselves live in a
 * `nodes` module that is not part of this model, so each variant keeps
 * exactly the arguments the actions pass: a text (the tag or operator) and,
 * for the operator and statement classes, the list of children.
 */
module Ast {
  datatype Node =
    | StatementOp(tag: string, children: seq<Node>)
    | BinOp(op: string, children: seq<Node>)
    | UnOp(op: string, children: seq<Node>)
    | AssignmentOp(op: string, children: seq<Node>)
    | PrintOp(op: string, children: seq<Node>)
    | WhileOp(op: string, children: seq<Node>)
    | ConditionOp(op: string, children: seq<Node>)
    | InputOp(op: string)
    | IntVal(n: nat)
    | StringVal(s: string)
    | IdentifierVal(name: string)
    | BoolVal(s: string)

  /** Some node of the tree is a `Bool_val`. */
  predicate HasBool(n: Node) {
    match n
    case BoolVal(_) => true
    case StatementOp(_, cs) => exists i :: 0 <= i < |cs| && HasBool(cs[i])
    case BinOp(_, cs) => exists i :: 0 <= i < |cs| && HasBool(cs[i])
    case UnOp(_, cs) => exists i :: 0 <= i < |cs| && HasBool(cs[i])
    case AssignmentOp(_, cs) => exists i :: 0 <= i < |cs| && HasBool(cs[i])
    case PrintOp(_, cs) => exists i :: 0 <= i < |cs| && HasBool(cs[i])
    case WhileOp(_, cs) => exists i :: 0 <= i < |cs| && HasBool(cs[i])
    case ConditionOp(_, cs) => exists i :: 0 <= i < |cs| && HasBool(cs[i])
    case _ => false
  }
}
