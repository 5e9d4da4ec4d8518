/** The five special tools a box may hold. Each tool class of the source only
    carries a fixed display name and an apply behaviour; the behaviour is in
    module ToolEffects, next to the grid it changes. */
module Tools {

  datatype Tool = PlusShapeStamp | MassRowStamp | MassColumnStamp | BoxFlipper | BoxFixer

  /** getToolName, which toString also returns: the name each subclass hands
      to the base constructor, never reassigned afterwards. */
  function ToolName(t: Tool): string
  {
    match t
    case PlusShapeStamp => "PlusShapeStamp"
    case MassRowStamp => "MassRowStamp"
    case MassColumnStamp => "MassColumnStamp"
    case BoxFlipper => "BoxFlipper"
    case BoxFixer => "BoxFixer"
  }

  /** Different tools have different names, so a name identifies its tool. */
  lemma ToolNamesDistinct(t: Tool, u: Tool)
    requires t != u
    ensures ToolName(t) != ToolName(u)
  {
  }
}
