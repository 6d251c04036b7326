/** A worked document: one definition, one path with a GET operation taking a
    path parameter and answering 200 with a referenced schema. */
module Scenarios {
  import opened Wrappers
  import opened OpenApiV2
  import opened Surface
  import opened Collaborators
  import opened TypeInference
  import opened Definitions
  import opened Parameters
  import opened Responses
  import opened Builder

  const StringSchema := Schema("", "", Some(["string"]), None, None, None)
  const PetSchema := Schema("", "", None, None, Some([NamedSchema("name", StringSchema)]), None)
  const PetRef := Schema("#/definitions/Pet", "", None, None, None, None)
  const IdParameter := ParameterItem(NonBodyParam(PathParam(SubSchema("id", "string", ""))))
  const OkResponse := NamedResponseValue("200", ResponseVal(Response("", Some(PlainSchema(PetRef)))))
  const GetPet := Operation("getPet", "", [IdParameter], [OkResponse])
  const PetsPath := NamedPathItem("/pets/{id}", PathItem(Some(GetPet), None, None, None, None, None, None))
  const PetsDocument := Document("Pets", Some([NamedSchema("Pet", PetSchema)]), [PetsPath])

  const PetType := Type("Pet", "implements the service definition of " + "Pet", Struct,
                        [Field("name", "string", "", "", Unpositioned, true)], "")
  const GetPetParameters := Type("getPetParameters", "getPetParameters" + " holds parameters to " + "getPet", Struct,
                                 [Field("id", "string", "", "", Path, true)], "")
  const GetPetResponses := Type("getPetResponses", "getPetResponses" + " holds responses of " + "getPet", Struct,
                                [Field("200", "*Pet", "Pet", "", Unpositioned, false)], "")
  const GetPetMethod := Method("getPet", "getPet", "/pets/{id}", "GET", "", "getPetParameters", "getPetResponses")

  const PetsWithTypes := Model("Pets", [PetType], [])
  const PetsWithParameters := Model("Pets", [PetType, GetPetParameters], [])
  const PetsWithHolders := Model("Pets", [PetType, GetPetParameters, GetPetResponses], [])

  lemma PetDefinition(e: Env)
    ensures DefinitionTypes(e, [NamedSchema("Pet", PetSchema)]) == [PetType]
  {
    assert TypeForSchema(e, StringSchema) == "string";
    assert PropertyFields(e, [NamedSchema("name", StringSchema)]) == PetType.fields;
    assert BuildTypeFromDefinition(e, "Pet", PetSchema) == PetType;
    assert [NamedSchema("Pet", PetSchema)][..0] == [];
  }

  lemma PetParameterFields(e: Env)
    ensures ParameterFields(e, [IdParameter]) == GetPetParameters.fields
  {
    assert ParameterField(e, IdParameter) == GetPetParameters.fields[0];
    assert [IdParameter][1..] == [];
  }

  lemma PetParameters(e: Env)
    ensures BuildTypeFromParameters(e, PetsWithTypes, "getPet", [IdParameter]) == ("getPetParameters", PetsWithParameters)
  {
    var r := BuildTypeFromParameters(e, PetsWithTypes, "getPet", [IdParameter]);
    assert [IdParameter][0].ParameterItem?;
    assert r.0 == "getPet" + "Parameters" == "getPetParameters";
    PetParameterFields(e);
    assert PetsWithTypes.types + [GetPetParameters] == PetsWithParameters.types;
  }

  lemma PetResponseFields(e: Env)
    requires e.typeForRef("#/definitions/Pet") == "Pet"
    ensures ResponseFields(e, [OkResponse]) == GetPetResponses.fields
  {
    assert TypeForSchema(e, PetRef) == "Pet";
    assert "*" + "Pet" == "*Pet";
    assert ResponseField(e, OkResponse) == GetPetResponses.fields[0];
    assert [OkResponse][1..] == [];
  }

  lemma PetResponses(e: Env)
    requires e.typeForRef("#/definitions/Pet") == "Pet"
    ensures BuildTypeFromResponses(e, PetsWithParameters, "getPet", [OkResponse]) == ("getPetResponses", PetsWithHolders)
  {
    var r := BuildTypeFromResponses(e, PetsWithParameters, "getPet", [OkResponse]);
    assert HasSchema([OkResponse][0]);
    assert r.0 == "getPet" + "Responses" == "getPetResponses";
    PetResponseFields(e);
    assert PetsWithParameters.types + [GetPetResponses] == PetsWithHolders.types;
  }

  lemma PetMethod(e: Env)
    requires e.typeForRef("#/definitions/Pet") == "Pet"
    requires e.sanitizeOperationName("getPet") == "getPet"
    ensures AddPaths(e, PetsWithTypes, [PetsPath]) == AddMethod(PetsWithHolders, GetPetMethod)
  {
    assert OperationName(e, GetPet, "GET", "/pets/{id}") == "getPet";
    PetParameters(e);
    PetResponses(e);
    assert BuildMethodFromOperation(e, PetsWithTypes, GetPet, "GET", "/pets/{id}") == AddMethod(PetsWithHolders, GetPetMethod);
    assert AddPathItem(e, PetsWithTypes, PetsPath) == AddMethod(PetsWithHolders, GetPetMethod);
    assert [PetsPath][..0] == [];
  }

  /** With the reference normalised to its last segment and the operation id
      kept as is, the document yields the definition type, both holder types
      and one GET method linked to them. */
  lemma PetsTranslation(e: Env)
    requires e.typeForRef("#/definitions/Pet") == "Pet"
    requires e.sanitizeOperationName("getPet") == "getPet"
    ensures Build(e, PetsDocument) == Model("Pets", [PetType, GetPetParameters, GetPetResponses], [GetPetMethod])
  {
    PetDefinition(e);
    PetMethod(e);
    BuildUnfold(e, PetsDocument);
  }
}
