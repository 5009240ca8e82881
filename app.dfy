/** The state of the `App` component and the handlers that change it. Ids,
    timestamps and the answer to a confirmation dialog are passed in, since
    they come from the clock, a random source and the browser. */
module AppState {
  import opened Seqs
  import opened Strings
  import opened Config
  import opened Templates
  import opened Render
  import opened Store

  class App {
    /** The built-in template table the component reads. */
    const templates: seq<KeyedTemplate>
    var formData: FormData
    var selectedTemplateKey: string
    var generatedPrompt: string
    var promptHistory: seq<HistoryItem>
    var userTemplates: seq<UserTemplate>
    var customTemplateName: string

    /** The initial state: the default configuration, the first built-in
        template selected, no prompt, and the history and user templates read
        from storage. */
    constructor(storedHistory: Stored<HistoryItem>, storedTemplates: Stored<UserTemplate>)
      ensures templates == BuiltinTemplates
      ensures formData == InitialFormData
      ensures selectedTemplateKey == FirstBuiltinKey
      ensures generatedPrompt == ""
      ensures promptHistory == LoadArray(storedHistory, [])
      ensures userTemplates == LoadArray(storedTemplates, [])
      ensures customTemplateName == ""
    {
      templates := BuiltinTemplates;
      formData := InitialFormData;
      selectedTemplateKey := FirstBuiltinKey;
      generatedPrompt := "";
      promptHistory := LoadArray(storedHistory, []);
      userTemplates := LoadArray(storedTemplates, []);
      customTemplateName := "";
    }

    /** `handleInputChange`: one field takes a new value, nothing else changes. */
    method InputChange(f: Field, v: Value)
      requires Fits(f, v)
      modifies this
      ensures formData == SetField(old(formData), f, v)
      ensures selectedTemplateKey == old(selectedTemplateKey) && generatedPrompt == old(generatedPrompt)
      ensures promptHistory == old(promptHistory) && userTemplates == old(userTemplates)
      ensures customTemplateName == old(customTemplateName)
    {
      formData := SetField(formData, f, v);
    }

    /** `handleMultiSelectChange`: checking appends `v` to the list, unchecking
        removes every copy of it; nothing else changes. */
    method MultiSelectChange(f: Field, v: string, checked: bool)
      requires IsListField(f)
      modifies this
      ensures formData == ToggleListField(old(formData), f, v, checked)
      ensures selectedTemplateKey == old(selectedTemplateKey) && generatedPrompt == old(generatedPrompt)
      ensures promptHistory == old(promptHistory) && userTemplates == old(userTemplates)
      ensures customTemplateName == old(customTemplateName)
    {
      formData := ToggleListField(formData, f, v, checked);
    }

    /** `handleTemplateSelect`: the key becomes the selection and the
        configuration is merged with the template's defaults or replaced by a
        user template's saved configuration. */
    method TemplateSelect(key: string)
      modifies this
      ensures selectedTemplateKey == key
      ensures formData == SelectTemplateData(old(formData), Lookup(templates, key), FindUserTemplate(old(userTemplates), key))
      ensures unchanged(this`generatedPrompt, this`promptHistory, this`userTemplates, this`customTemplateName)
    {
      var found := Lookup(templates, key);
      var saved := FindUserTemplate(userTemplates, key);
      var next := SelectTemplateData(formData, found, saved);
      selectedTemplateKey := key;
      formData := next;
    }

    /** `generatePrompt`: with no template under the selected key the prompt
        becomes `Select a template.` and the history is left alone; otherwise
        the template is rendered and a history item holding a copy of the
        configuration is put in front of the history. */
    method GeneratePrompt(id: string, timestamp: string, localTime: string)
      modifies this
      ensures unchanged(this`formData, this`selectedTemplateKey, this`userTemplates, this`customTemplateName)
      ensures old(ResolveTemplate(templates, selectedTemplateKey, userTemplates)).None? ==>
        generatedPrompt == "Select a template." && promptHistory == old(promptHistory)
      ensures old(ResolveTemplate(templates, selectedTemplateKey, userTemplates)).Some? ==>
        var t := old(ResolveTemplate(templates, selectedTemplateKey, userTemplates)).value;
        && generatedPrompt == RenderText(t.promptFormat, old(formData))
        && promptHistory == Prepend(HistoryItem(id, timestamp, old(formData), old(selectedTemplateKey), t.name + " - " + localTime), old(promptHistory))
    {
      var resolved := ResolveTemplate(templates, selectedTemplateKey, userTemplates);
      match resolved
      case None =>
        generatedPrompt := "Select a template.";
      case Some(t) =>
        var prompt := RenderPrompt(t.promptFormat, formData);
        var item := HistoryItem(id, timestamp, formData, selectedTemplateKey, t.name + " - " + localTime);
        var history := Prepend(item, promptHistory);
        generatedPrompt := prompt;
        promptHistory := history;
    }

    /** The text field holding the name of the template to save. */
    method SetCustomTemplateName(name: string)
      modifies this
      ensures customTemplateName == name
      ensures formData == old(formData) && selectedTemplateKey == old(selectedTemplateKey)
      ensures generatedPrompt == old(generatedPrompt) && promptHistory == old(promptHistory)
      ensures userTemplates == old(userTemplates)
    {
      customTemplateName := name;
    }

    /** `handleSaveTemplate`: an empty or blank name saves nothing; otherwise
        one template is appended, named by the trimmed name, holding the
        current prompt and configuration, and the name field is cleared. */
    method SaveTemplate(id: string)
      modifies this
      ensures formData == old(formData) && selectedTemplateKey == old(selectedTemplateKey)
      ensures generatedPrompt == old(generatedPrompt) && promptHistory == old(promptHistory)
      ensures AllSpace(old(customTemplateName)) ==>
        userTemplates == old(userTemplates) && customTemplateName == old(customTemplateName)
      ensures !AllSpace(old(customTemplateName)) ==>
        && userTemplates == old(userTemplates) + [UserTemplate(id, Trim(old(customTemplateName)), "User Defined", generatedPrompt, formData)]
        && customTemplateName == ""
    {
      var name := Trim(customTemplateName);
      TrimBlank(customTemplateName);
      if name == [] {
        return;
      }
      var saved := UserTemplate(id, name, "User Defined", generatedPrompt, formData);
      userTemplates := userTemplates + [saved];
      customTemplateName := "";
    }

    /** `handleLoadTemplate`: a saved template becomes the selection and its
        configuration the current one; an unknown id changes nothing. */
    method LoadTemplate(templateId: string)
      modifies this
      ensures generatedPrompt == old(generatedPrompt) && promptHistory == old(promptHistory)
      ensures userTemplates == old(userTemplates) && customTemplateName == old(customTemplateName)
      ensures FindUserTemplate(userTemplates, templateId).None? ==>
        formData == old(formData) && selectedTemplateKey == old(selectedTemplateKey)
      ensures FindUserTemplate(userTemplates, templateId).Some? ==>
        && selectedTemplateKey == templateId
        && formData == FindUserTemplate(userTemplates, templateId).value.formData
    {
      match FindUserTemplate(userTemplates, templateId)
      case None =>
      case Some(t) =>
        selectedTemplateKey := templateId;
        formData := t.formData;
    }

    /** `handleDeleteTemplate`: once confirmed, every template with the id
        goes, and if it was the selection, the selection and the
        configuration go back to their initial values. */
    method DeleteTemplate(templateId: string, confirmed: bool)
      modifies this
      ensures generatedPrompt == old(generatedPrompt) && promptHistory == old(promptHistory)
      ensures customTemplateName == old(customTemplateName)
      ensures !confirmed ==>
        && userTemplates == old(userTemplates)
        && formData == old(formData) && selectedTemplateKey == old(selectedTemplateKey)
      ensures confirmed ==> userTemplates == RemoveTemplate(old(userTemplates), templateId)
      ensures confirmed && old(selectedTemplateKey) == templateId ==>
        selectedTemplateKey == FirstBuiltinKey && formData == InitialFormData
      ensures confirmed && old(selectedTemplateKey) != templateId ==>
        selectedTemplateKey == old(selectedTemplateKey) && formData == old(formData)
    {
      if confirmed {
        userTemplates := RemoveTemplate(userTemplates, templateId);
        if selectedTemplateKey == templateId {
          selectedTemplateKey := FirstBuiltinKey;
          formData := InitialFormData;
        }
      }
    }

    /** `handleLoadFromHistory`: the configuration and selection recorded with
        the item come back; an unknown id changes nothing. */
    method LoadFromHistory(itemId: string)
      modifies this
      ensures generatedPrompt == old(generatedPrompt) && promptHistory == old(promptHistory)
      ensures userTemplates == old(userTemplates) && customTemplateName == old(customTemplateName)
      ensures FindHistoryItem(promptHistory, itemId).None? ==>
        formData == old(formData) && selectedTemplateKey == old(selectedTemplateKey)
      ensures FindHistoryItem(promptHistory, itemId).Some? ==>
        && formData == FindHistoryItem(promptHistory, itemId).value.formData
        && selectedTemplateKey == FindHistoryItem(promptHistory, itemId).value.templateKey
    {
      match FindHistoryItem(promptHistory, itemId)
      case None =>
      case Some(item) =>
        formData := item.formData;
        selectedTemplateKey := item.templateKey;
    }

    /** `handleClearHistory`: once confirmed the history is emptied. */
    method ClearHistory(confirmed: bool)
      modifies this
      ensures promptHistory == if confirmed then [] else old(promptHistory)
      ensures formData == old(formData) && selectedTemplateKey == old(selectedTemplateKey)
      ensures generatedPrompt == old(generatedPrompt) && userTemplates == old(userTemplates)
      ensures customTemplateName == old(customTemplateName)
    {
      if confirmed {
        promptHistory := [];
      }
    }
  }
}
