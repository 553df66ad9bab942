/**
 * The favourites hook: a list of product snapshots, mirrored under
 * `FavoritesKey` after every change. Membership is by product id.
 */
module FavoritesHook {
  import opened Lists
  import opened Storage

  function IdOf(p: Product): string {
    p.id
  }

  /** The state of one `useFavorites()` instance. */
  class Favorites {
    const store: KeyValueStore
    var favorites: seq<Product>

    /** The stored value equals the list in memory. */
    predicate Mirrored()
      reads this, store
    {
      FavoritesKey in store.entries && store.entries[FavoritesKey] == FavoritesJson(favorites)
    }

    /** The mount effect: the stored list when one is readable, otherwise no favourites. */
    constructor Load(store: KeyValueStore)
      ensures this.store == store
      ensures FavoritesKey in store.entries && store.entries[FavoritesKey].FavoritesJson? ==>
        favorites == store.entries[FavoritesKey].products
      ensures FavoritesKey !in store.entries || store.entries[FavoritesKey] == Malformed ==> favorites == []
    {
      this.store := store;
      favorites := StoredFavorites(store.entries);
    }

    /** `saveFavorites`: replace the list and write it under `FavoritesKey`. */
    method Save(newFavorites: seq<Product>)
      modifies this, store
      ensures favorites == newFavorites && Mirrored()
      ensures store.entries == old(store.entries)[FavoritesKey := FavoritesJson(newFavorites)]
    {
      favorites := newFavorites;
      store.SetItem(FavoritesKey, FavoritesJson(newFavorites));
    }

    /** `addToFavorites`: append, even when the id is already there. */
    method AddToFavorites(product: Product)
      modifies this, store
      ensures favorites == old(favorites) + [product] && Mirrored()
      ensures store.entries == old(store.entries)[FavoritesKey := FavoritesJson(favorites)]
    {
      Save(favorites + [product]);
    }

    /** `removeFromFavorites`: drop every entry with this id, the others kept in order. */
    method RemoveFromFavorites(id: string)
      modifies this, store
      ensures favorites == Without(old(favorites), IdOf, id) && Mirrored()
      ensures store.entries == old(store.entries)[FavoritesKey := FavoritesJson(favorites)]
    {
      Save(Without(favorites, IdOf, id));
    }

    /** `isFavorite`: some stored entry has this id. */
    predicate IsFavorite(id: string)
      reads this
    {
      HasKey(favorites, IdOf, id)
    }

    /**
     * `toggleFavorite`: remove when present, append when absent. The id flips
     * membership, every other id keeps its membership, and unique ids stay unique.
     */
    method ToggleFavorite(product: Product)
      modifies this, store
      ensures favorites == Toggle(old(favorites), IdOf, product) && Mirrored()
      ensures IsFavorite(product.id) <==> !old(IsFavorite(product.id))
      ensures forall id :: id != product.id ==> (IsFavorite(id) <==> old(IsFavorite(id)))
      ensures UniqueKeys(old(favorites), IdOf) ==> UniqueKeys(favorites, IdOf)
      ensures store.entries == old(store.entries)[FavoritesKey := FavoritesJson(favorites)]
    {
      if UniqueKeys(favorites, IdOf) {
        ToggleUnique(favorites, IdOf, product);
      }
      if IsFavorite(product.id) {
        RemoveFromFavorites(product.id);
      } else {
        AddToFavorites(product);
      }
    }
  }
}
