/** The watermark template store (src/store/watermarkStore.js): the saved
    templates, the selected one and the one being edited. A template's id
    is the Date.now() value at the time it was added. */
module WatermarkStore {
  import opened Js
  import opened Records

  /** The template as addTemplate stores it: its own keys with the id set
      to now (an id the template carried is overwritten). */
  function WithId(template: Record, now: real): (r: Record)
    ensures r.Keys == template.Keys + {"id"}
    ensures IdOf(r) == Num(now)
    ensures forall k :: k in template && k != "id" ==> k in r && r[k] == template[k]
  {
    Spread(template, map["id" := Num(now)])
  }

  class WatermarkStore {
    var templates: seq<Record>
    var currentTemplate: Value
    var editingTemplate: Value

    constructor()
      ensures templates == [] && currentTemplate == Null && editingTemplate == Null
    {
      templates := [];
      currentTemplate := Null;
      editingTemplate := Null;
    }

    method AddTemplate(template: Record, now: real)
      modifies this
      ensures templates == old(templates) + [WithId(template, now)]
      ensures currentTemplate == old(currentTemplate) && editingTemplate == old(editingTemplate)
    {
      templates := templates + [WithId(template, now)];
    }

    /** Merges the update into every template with that id. */
    method UpdateTemplate(id: Value, updatedTemplate: Record)
      modifies this
      ensures templates == MergeWhereId(old(templates), id, updatedTemplate)
      ensures currentTemplate == old(currentTemplate) && editingTemplate == old(editingTemplate)
    {
      templates := MergeWhereId(templates, id, updatedTemplate);
    }

    /** Removes every template with that id. */
    method DeleteTemplate(id: Value)
      modifies this
      ensures templates == WithoutId(old(templates), id)
      ensures currentTemplate == old(currentTemplate) && editingTemplate == old(editingTemplate)
    {
      templates := WithoutId(templates, id);
    }

    method SetCurrentTemplate(template: Value)
      modifies this
      ensures currentTemplate == template
      ensures templates == old(templates) && editingTemplate == old(editingTemplate)
    {
      currentTemplate := template;
    }

    method SetEditingTemplate(template: Value)
      modifies this
      ensures editingTemplate == template
      ensures templates == old(templates) && currentTemplate == old(currentTemplate)
    {
      editingTemplate := template;
    }

    method ClearEditingTemplate()
      modifies this
      ensures editingTemplate == Null
      ensures templates == old(templates) && currentTemplate == old(currentTemplate)
    {
      editingTemplate := Null;
    }
  }

  // ---------------------------------------------------------------------
  // What the template actions promise

  /** Updating a template and then looking for it finds the merged one,
      provided its id is not itself changed by the update. */
  lemma {:induction false} UpdateThenFind(templates: seq<Record>, id: Value, upd: Record)
    requires "id" !in upd
    ensures var f := FindId(templates, id);
            f.Some? ==> FindId(MergeWhereId(templates, id, upd), id) == Some(Spread(f.value, upd))
    ensures FindId(templates, id).None? ==> MergeWhereId(templates, id, upd) == templates
  {
    if templates != [] {
      UpdateThenFind(templates[1..], id, upd);
      var t := MergeWhereId(templates, id, upd);
      assert t[1..] == MergeWhereId(templates[1..], id, upd);
      if IdOf(templates[0]) == id {
        assert IdOf(Spread(templates[0], upd)) == id;
      }
    }
  }

  /** Deleting an id no template has leaves the list as it is; deleting a
      present id shortens it. */
  lemma DeleteAbsentOrPresent(templates: seq<Record>, id: Value)
    ensures (forall t :: t in templates ==> IdOf(t) != id) ==> WithoutId(templates, id) == templates
    ensures (exists t :: t in templates && IdOf(t) == id) ==> |WithoutId(templates, id)| < |templates|
  {
    if forall t :: t in templates ==> IdOf(t) != id {
      WithoutAbsentId(templates, id);
    } else {
      DeleteShortens(templates, id);
    }
  }

  lemma {:induction false} DeleteShortens(templates: seq<Record>, id: Value)
    requires exists t :: t in templates && IdOf(t) == id
    ensures |WithoutId(templates, id)| < |templates|
  {
    if IdOf(templates[0]) != id {
      var t :| t in templates && IdOf(t) == id;
      assert t in templates[1..];
      DeleteShortens(templates[1..], id);
    }
  }
}
