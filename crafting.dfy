/** Improvised crafting (lib/CraftingEngine.ts): a fixed recipe list; a
    recipe can be crafted when every ingredient is in the player's inventory.
    The engine only reads the inventory, so it is a parameter here. */
module Crafting {
  import opened Common

  datatype SkillReq = SkillReq(skill: string, level: int)

  datatype Recipe = Recipe(
    id: string, result: string, ingredients: seq<string>, description: string,
    skillReq: Option<SkillReq>)

  datatype CraftResult = CraftResult(success: bool, result: Option<string>, message: string)

  const MaggotToolText := "Spray the blade with coolant to freeze the maggots while cutting."
  const ChestSealText := "Create a 3-sided occlusive dressing for a sucking chest wound."

  const Recipes: seq<Recipe> := [
    Recipe("maggot_tool", "FROZEN_CAST_CUTTER", ["ETHYL_CHLORIDE", "CAST_CUTTER"],
           MaggotToolText, Some(SkillReq("IMPROVISATION", 1))),
    Recipe("chest_seal_improvised", "OCCLUSIVE_DRESSING", ["VASELINE_GAUZE", "TAPE"],
           ChestSealText, Some(SkillReq("PROCEDURE", 2)))
  ]

  const UnknownRecipe := "Unknown recipe"
  const MissingIngredients := "Missing ingredients"

  /** `recipes.find(r => r.id === recipeId)`: the first recipe with the id. */
  function FindRecipe(recipes: seq<Recipe>, recipeId: string): (r: Option<Recipe>)
    ensures r.Some? ==> r.value in recipes && r.value.id == recipeId
    ensures r.None? <==> forall i :: 0 <= i < |recipes| ==> recipes[i].id != recipeId
  {
    if recipes == [] then None
    else if recipes[0].id == recipeId then Some(recipes[0])
    else FindRecipe(recipes[1..], recipeId)
  }

  /** `ingredients.every(ing => inventory.includes(ing))`. */
  function AllHeld(ingredients: seq<string>, inventory: seq<string>): (b: bool)
    ensures b <==> forall i :: 0 <= i < |ingredients| ==> ingredients[i] in inventory
  {
    if ingredients == [] then true
    else ingredients[0] in inventory && AllHeld(ingredients[1..], inventory)
  }

  /** `canCraft`: false for an unknown recipe, otherwise whether every
      ingredient is held. */
  function CanCraft(inventory: seq<string>, recipeId: string): (b: bool)
    ensures b <==> FindRecipe(Recipes, recipeId).Some? && AllHeld(FindRecipe(Recipes, recipeId).value.ingredients, inventory)
  {
    var recipe := FindRecipe(Recipes, recipeId);
    recipe.Some? && AllHeld(recipe.value.ingredients, inventory)
  }

  /** Holding more never makes a craftable recipe uncraftable. */
  lemma CanCraftMonotone(inventory: seq<string>, more: seq<string>, recipeId: string)
    requires forall x :: x in inventory ==> x in more
    requires CanCraft(inventory, recipeId)
    ensures CanCraft(more, recipeId)
  {
  }

  /** `craft`: an unknown recipe or a missing ingredient fails with its
      message and no item; otherwise the recipe's result item is made, with
      the message `Crafted <result>: <description>`. The skill requirement is
      never consulted and no ingredient is used up. */
  function Craft(inventory: seq<string>, recipeId: string): (r: CraftResult)
    ensures r.success <==> CanCraft(inventory, recipeId)
    ensures r.success <==> r.result.Some?
    ensures FindRecipe(Recipes, recipeId).None? ==> r == CraftResult(false, None, UnknownRecipe)
    ensures FindRecipe(Recipes, recipeId).Some? && !r.success ==> r == CraftResult(false, None, MissingIngredients)
    ensures r.success ==> r.result == Some(FindRecipe(Recipes, recipeId).value.result)
  {
    var recipe := FindRecipe(Recipes, recipeId);
    if recipe.None? then CraftResult(false, None, UnknownRecipe)
    else if !CanCraft(inventory, recipeId) then CraftResult(false, None, MissingIngredients)
    else CraftResult(true, Some(recipe.value.result),
                     "Crafted " + recipe.value.result + ": " + recipe.value.description)
  }

  /** The frozen cast cutter is made from its two ingredients alone, though the
      recipe names an IMPROVISATION requirement the engine never checks. */
  lemma FrozenCastCutter()
    ensures Craft(["ETHYL_CHLORIDE", "CAST_CUTTER"], "maggot_tool").result == Some("FROZEN_CAST_CUTTER")
    ensures Craft(["ETHYL_CHLORIDE"], "maggot_tool").message == MissingIngredients
  {
    assert FindRecipe(Recipes, "maggot_tool") == Some(Recipes[0]);
    assert "CAST_CUTTER" !in ["ETHYL_CHLORIDE"];
  }
}
