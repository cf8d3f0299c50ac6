/**
  The view model of MetaverseCompetition/UI/AddModelView/AddModelStateView.swift
  and the actions its buttons take. The Combine sinks that mirror the published
  fields into the store are not modelled.
*/
module AddModelView {
  import opened Wrappers
  import opened States
  import opened AppStateModel
  import opened StateStore
  import opened Services

  class ViewModel {
    var modelConfirmedForPlacement: Option<string>
    var addModelState: AddModelState
    var isPlacementEnabled: bool
    var selectedModel: Option<string>
    const addModelService: AddModelService

    /** The placement bar is shown only once a model has been picked. */
    ghost predicate Valid()
      reads this, addModelService, addModelService.appState
    {
      (isPlacementEnabled ==> selectedModel.Some?) && addModelService.appState.Valid()
    }

    /** The published fields start from the store's add-model slice. */
    constructor (addModelService: AddModelService)
      requires addModelService.appState.Valid()
      ensures Valid() && this.addModelService == addModelService
      ensures modelConfirmedForPlacement == addModelService.appState.value.addModelAppState.modelConfirmedForPlacement
      ensures addModelState == addModelService.appState.value.addModelAppState.addModelState
      ensures !isPlacementEnabled && selectedModel == None
    {
      this.addModelService := addModelService;
      modelConfirmedForPlacement := addModelService.appState.value.addModelAppState.modelConfirmedForPlacement;
      addModelState := addModelService.appState.value.addModelAppState.addModelState;
      isPlacementEnabled := false;
      selectedModel := None;
    }

    method ChangeAddModelState(state: AddModelState)
      requires Valid()
      modifies addModelService.appState
      ensures Valid()
      ensures addModelService.appState.value == WithAddModelState(old(addModelService.appState.value), state)
      ensures addModelService.appState.value.addModelAppState.addModelState == state
    {
      addModelService.ChangeAddModelState(state);
    }

    method ResetPlacementParameters()
      requires Valid()
      modifies this`isPlacementEnabled, this`selectedModel
      ensures Valid()
      ensures !isPlacementEnabled && selectedModel == None
    {
      isPlacementEnabled := false;
      selectedModel := None;
    }

    method ModelPlacementCancelButton()
      requires Valid()
      modifies this`isPlacementEnabled, this`selectedModel, addModelService.appState
      ensures Valid()
      ensures addModelService.appState.value == WithoutConfirmedModel(old(addModelService.appState.value))
      ensures !isPlacementEnabled && selectedModel == None
    {
      addModelService.ModelPlacementCancelButton();
      ResetPlacementParameters();
    }

    /** `selectedModel!` traps on nil, so a model must have been picked. */
    method ModelPlacementConfirmButton()
      requires Valid() && selectedModel.Some?
      modifies this`isPlacementEnabled, this`selectedModel, addModelService.appState
      ensures Valid()
      ensures addModelService.appState.value == WithConfirmedModel(old(addModelService.appState.value), old(selectedModel.value))
      ensures !isPlacementEnabled && selectedModel == None
    {
      addModelService.ModelPlacementConfirmButton(selectedModel.value);
      ResetPlacementParameters();
    }

    /** Tapping a model in the picker selects it and shows the placement bar. */
    method SelectModel(name: string)
      requires Valid()
      modifies this`isPlacementEnabled, this`selectedModel
      ensures Valid()
      ensures selectedModel == Some(name) && isPlacementEnabled
    {
      selectedModel := Some(name);
      isPlacementEnabled := true;
    }

    /** The checkmark button of the placement bar. */
    method ConfirmBarButton()
      requires Valid() && isPlacementEnabled
      modifies this`isPlacementEnabled, this`selectedModel, addModelService.appState
      ensures Valid()
      ensures addModelService.appState.value == WithConfirmedModel(old(addModelService.appState.value), old(selectedModel.value))
      ensures !isPlacementEnabled && selectedModel == None
    {
      ModelPlacementConfirmButton();
    }

    /** The xmark ("Cancel") button as written: it calls the confirm handler and so places the model. */
    method CancelBarButtonAsWritten()
      requires Valid() && isPlacementEnabled
      modifies this`isPlacementEnabled, this`selectedModel, addModelService.appState
      ensures Valid()
      ensures addModelService.appState.value == WithConfirmedModel(old(addModelService.appState.value), old(selectedModel.value))
      ensures addModelService.appState.value.addModelAppState.modelConfirmedForPlacement.Some?
      ensures !isPlacementEnabled && selectedModel == None
    {
      ModelPlacementConfirmButton();
    }

    /** The xmark button as intended: it cancels, so no model is confirmed afterwards. */
    method CancelBarButton()
      requires Valid() && isPlacementEnabled
      modifies this`isPlacementEnabled, this`selectedModel, addModelService.appState
      ensures Valid()
      ensures addModelService.appState.value == WithoutConfirmedModel(old(addModelService.appState.value))
      ensures addModelService.appState.value.addModelAppState.modelConfirmedForPlacement == None
      ensures !isPlacementEnabled && selectedModel == None
    {
      ModelPlacementCancelButton();
    }
  }

  /**
    The discrepancy: from any state with a picked model, the written xmark action
    leaves a model confirmed for placement, while cancelling leaves none.
  */
  lemma CancelBarButtonPlacesModel(s: AppState, picked: string)
    ensures WithConfirmedModel(s, picked).addModelAppState.modelConfirmedForPlacement == Some(picked)
    ensures WithoutConfirmedModel(s).addModelAppState.modelConfirmedForPlacement == None
    ensures WithConfirmedModel(s, picked) != WithoutConfirmedModel(s)
  {
  }
}
