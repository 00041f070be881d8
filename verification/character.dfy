/** The hero's configuration: one option id per body part, one colour per
    body part and an optional super ability, together with the option
    tables the customisation screen offers and the lookups into them. */
module Character {
  import opened Options

  datatype BodyPart = Head | Torso | Arms | Legs

  datatype SuperAbility = Flying | Strength | Magic

  /** The string identifier the program uses for each ability. */
  function AbilityId(a: SuperAbility): string
  {
    match a
    case Flying => "flying"
    case Strength => "strength"
    case Magic => "magic"
  }

  datatype BodyPartOption = BodyPartOption(id: string, name: string, description: Option<string>)

  datatype AbilityOption = AbilityOption(id: string, name: string, description: string, effect: string)

  datatype ColorOption = ColorOption(id: string, name: string)

  datatype Colors = Colors(head: string, torso: string, arms: string, legs: string)

  datatype CharacterState = CharacterState(
    head: string,
    torso: string,
    arms: string,
    legs: string,
    superAbility: Option<SuperAbility>,
    colors: Colors)

  /** The three options offered for each body part. */
  function BodyPartOptions(part: BodyPart): seq<BodyPartOption>
  {
    match part
    case Head => [
      BodyPartOption("head-1", "Helmet", Some("Sleek metallic helmet")),
      BodyPartOption("head-2", "Mask", Some("Mysterious face mask")),
      BodyPartOption("head-3", "Hood", Some("Shadowy hood"))]
    case Torso => [
      BodyPartOption("torso-1", "Armor", Some("Reinforced body armor")),
      BodyPartOption("torso-2", "Suit", Some("Flexible combat suit")),
      BodyPartOption("torso-3", "Jacket", Some("Tactical jacket"))]
    case Arms => [
      BodyPartOption("arms-1", "Gauntlets", Some("Power gauntlets")),
      BodyPartOption("arms-2", "Bracers", Some("Reinforced arm bracers")),
      BodyPartOption("arms-3", "Sleeves", Some("Enhanced sleeves"))]
    case Legs => [
      BodyPartOption("legs-1", "Boots", Some("Gravity-defying boots")),
      BodyPartOption("legs-2", "Greaves", Some("Armored leg protection")),
      BodyPartOption("legs-3", "Pants", Some("Tactical combat pants"))]
  }

  const SuperAbilityOptions: seq<AbilityOption> := [
    AbilityOption("flying", "Flying",
      "Soar through the air with a majestic cape",
      "Adds a flowing cape to your hero"),
    AbilityOption("strength", "Strength",
      "Unleash devastating power with enhanced muscles",
      "Enlarges your hero's arms for powerful attacks"),
    AbilityOption("magic", "Magic",
      "Harness mystical energies with glowing hands",
      "Makes your hero's hands glow with arcane energy")]

  const AvailableColors: seq<ColorOption> := [
    ColorOption("#FF5733", "Red"),
    ColorOption("#3366FF", "Blue"),
    ColorOption("#33FF57", "Green"),
    ColorOption("#F3FF33", "Yellow"),
    ColorOption("#FF33F3", "Pink"),
    ColorOption("#33FFF3", "Cyan"),
    ColorOption("#7F33FF", "Purple"),
    ColorOption("#FF7F33", "Orange"),
    ColorOption("#444444", "Gray"),
    ColorOption("#FFFFFF", "White")]

  /** `character[part]`: the option id chosen for a body part. */
  function PartId(c: CharacterState, part: BodyPart): string
  {
    match part
    case Head => c.head
    case Torso => c.torso
    case Arms => c.arms
    case Legs => c.legs
  }

  /** `character.colors[part]`. */
  function PartColor(c: CharacterState, part: BodyPart): string
  {
    match part
    case Head => c.colors.head
    case Torso => c.colors.torso
    case Arms => c.colors.arms
    case Legs => c.colors.legs
  }

  /** The state the customisation screen starts from. */
  function InitialCharacter(): (c: CharacterState)
    ensures forall part :: PartId(c, part) == BodyPartOptions(part)[0].id
    ensures c.superAbility == None
    ensures PartColor(c, Head) == "#444444" && PartColor(c, Torso) == "#3366FF"
    ensures PartColor(c, Arms) == "#444444" && PartColor(c, Legs) == "#444444"
  {
    CharacterState(
      BodyPartOptions(Head)[0].id,
      BodyPartOptions(Torso)[0].id,
      BodyPartOptions(Arms)[0].id,
      BodyPartOptions(Legs)[0].id,
      None,
      Colors("#444444", "#3366FF", "#444444", "#444444"))
  }

  /** `updateBodyPart`: the chosen part takes the new id; nothing else moves. */
  function UpdateBodyPart(c: CharacterState, part: BodyPart, optionId: string): (r: CharacterState)
    ensures PartId(r, part) == optionId
    ensures forall other :: other != part ==> PartId(r, other) == PartId(c, other)
    ensures r.colors == c.colors && r.superAbility == c.superAbility
  {
    match part
    case Head => c.(head := optionId)
    case Torso => c.(torso := optionId)
    case Arms => c.(arms := optionId)
    case Legs => c.(legs := optionId)
  }

  /** `updateBodyPartColor`: only the colour of the chosen part changes. */
  function UpdateBodyPartColor(c: CharacterState, part: BodyPart, color: string): (r: CharacterState)
    ensures PartColor(r, part) == color
    ensures forall other :: other != part ==> PartColor(r, other) == PartColor(c, other)
    ensures forall any :: PartId(r, any) == PartId(c, any)
    ensures r.superAbility == c.superAbility
  {
    var colors :=
      match part
      case Head => c.colors.(head := color)
      case Torso => c.colors.(torso := color)
      case Arms => c.colors.(arms := color)
      case Legs => c.colors.(legs := color);
    c.(colors := colors)
  }

  /** `setSuperAbility`: only the ability changes. */
  function SetSuperAbility(c: CharacterState, ability: Option<SuperAbility>): (r: CharacterState)
    ensures r.superAbility == ability
    ensures forall part :: PartId(r, part) == PartId(c, part) && PartColor(r, part) == PartColor(c, part)
  {
    c.(superAbility := ability)
  }

  /** `getSelectedOption`: the option of the part's table whose id is the
      chosen one, or `None` when the chosen id is not in the table. */
  function GetSelectedOption(c: CharacterState, part: BodyPart): (r: Option<BodyPartOption>)
    ensures r.Some? ==> r.value in BodyPartOptions(part) && r.value.id == PartId(c, part)
    ensures r.None? <==> forall o :: o in BodyPartOptions(part) ==> o.id != PartId(c, part)
  {
    var optionId := PartId(c, part);
    Find(BodyPartOptions(part), (o: BodyPartOption) => o.id == optionId)
  }

  /** `getSelectedAbility`: `None` when no ability is chosen, otherwise the
      ability option whose id names the chosen ability. */
  function GetSelectedAbility(c: CharacterState): (r: Option<AbilityOption>)
    ensures r.None? <==> c.superAbility.None?
    ensures r.Some? ==> r.value in SuperAbilityOptions && r.value.id == AbilityId(c.superAbility.value)
  {
    match c.superAbility
    case None => None
    case Some(a) =>
      AbilityOptionExists(a);
      Find(SuperAbilityOptions, (o: AbilityOption) => o.id == AbilityId(a))
  }

  /** Every ability has an entry in the ability table. */
  lemma AbilityOptionExists(a: SuperAbility)
    ensures exists o :: o in SuperAbilityOptions && o.id == AbilityId(a)
  {
    match a
    case Flying => assert SuperAbilityOptions[0].id == AbilityId(a);
    case Strength => assert SuperAbilityOptions[1].id == AbilityId(a);
    case Magic => assert SuperAbilityOptions[2].id == AbilityId(a);
  }

  /** No two options of a table share an id. */
  lemma BodyPartIdsDistinct(part: BodyPart)
    ensures forall i, j :: 0 <= i < j < |BodyPartOptions(part)| ==>
      BodyPartOptions(part)[i].id != BodyPartOptions(part)[j].id
  {
  }

  /** Choosing an option of the table and then looking it up yields exactly
      that option. */
  lemma SelectAfterUpdate(c: CharacterState, part: BodyPart, o: BodyPartOption)
    requires o in BodyPartOptions(part)
    ensures GetSelectedOption(UpdateBodyPart(c, part, o.id), part) == Some(o)
  {
    BodyPartIdsDistinct(part);
  }

  /** The initial character's parts all resolve to the first option of
      their table. */
  lemma InitialSelectionsResolve(part: BodyPart)
    ensures GetSelectedOption(InitialCharacter(), part) == Some(BodyPartOptions(part)[0])
  {
  }

  /** The default colours are all offered by the colour palette. */
  lemma InitialColorsAvailable(part: BodyPart)
    ensures exists k :: k in AvailableColors && k.id == PartColor(InitialCharacter(), part)
  {
    assert AvailableColors[1].id == "#3366FF";
    assert AvailableColors[8].id == "#444444";
  }

  /** Setting the same ability twice is the same as setting it once. */
  lemma SetSuperAbilityIdempotent(c: CharacterState, ability: Option<SuperAbility>)
    ensures SetSuperAbility(SetSuperAbility(c, ability), ability) == SetSuperAbility(c, ability)
  {
  }

  /** Updating a part to its current id changes nothing. */
  lemma UpdateBodyPartToSameIsIdentity(c: CharacterState, part: BodyPart)
    ensures UpdateBodyPart(c, part, PartId(c, part)) == c
  {
  }

  /** Recolouring a part with its current colour changes nothing. */
  lemma UpdateBodyPartColorToSameIsIdentity(c: CharacterState, part: BodyPart)
    ensures UpdateBodyPartColor(c, part, PartColor(c, part)) == c
  {
  }

  /** Recolouring never changes which option any part resolves to. */
  lemma ColorUpdateKeepsSelection(c: CharacterState, part: BodyPart, color: string, any: BodyPart)
    ensures GetSelectedOption(UpdateBodyPartColor(c, part, color), any) == GetSelectedOption(c, any)
  {
  }
}
